/** The packed adaptive-wait record word: claim phase, satisfied mask and
    registration sequence in one 64-bit atomic. */
module WaitRecord {

  /** A readiness mask: bit 0 is readable, bit 1 is writable. */
  datatype Mask = Mask(readable: bool, writable: bool) {

    function Bits(): (bits: nat) {
      (if readable then 1 else 0) + (if writable then 2 else 0)
    }

    predicate Empty() { !readable && !writable }

    function Or(other: Mask): Mask {
      Mask(readable || other.readable, writable || other.writable)
    }

    function And(other: Mask): Mask {
      Mask(readable && other.readable, writable && other.writable)
    }

    predicate Within(other: Mask) {
      (readable ==> other.readable) && (writable ==> other.writable)
    }
  }

  const NO_BITS := Mask(false, false)

  datatype Phase =
    | Free
    | Registering
    | Pending
    | Scheduled
    | Unmarking
    | Teardown
    | Cancelled

  datatype Record = Record(sequence: nat, satisfied: Mask, phase: Phase)

  const STATE_RANGE := 0x100
  const SEQUENCE_UNIT := 0x1_0000
  const SEQUENCE_RANGE := 0x1_0000_0000_0000
  const WORD_RANGE := 0x1_0000_0000_0000_0000

  function PhaseCode(p: Phase): (code: nat)
    ensures code < STATE_RANGE
  {
    match p
    case Free => 0
    case Registering => 1
    case Pending => 2
    case Scheduled => 3
    case Unmarking => 4
    case Teardown => 5
    case Cancelled => 6
  }

  /** The word built from its fields. The shift drops every sequence bit above
      the 48th, the mask keeps 8 bits of `satisfied`, and the three fields do not
      overlap, so the source's `|` is addition. */
  function Word(sequence: nat, satisfied: nat, state: nat): (word: nat)
    requires state < STATE_RANGE
    ensures word < WORD_RANGE
  {
    ShiftDropsHighBits(sequence);
    sequence * SEQUENCE_UNIT % WORD_RANGE + satisfied % STATE_RANGE * STATE_RANGE + state
  }

  function WordState(word: nat): nat { word % STATE_RANGE }

  function WordSatisfied(word: nat): nat { word / STATE_RANGE % STATE_RANGE }

  function WordSequence(word: nat): nat { word / SEQUENCE_UNIT }

  function Pack(r: Record): (word: nat)
    ensures word < WORD_RANGE
  {
    Word(r.sequence, r.satisfied.Bits(), PhaseCode(r.phase))
  }

  lemma ShiftDropsHighBits(sequence: nat)
    ensures sequence * SEQUENCE_UNIT % WORD_RANGE == sequence % SEQUENCE_RANGE * SEQUENCE_UNIT
  {
    var high, low := sequence / SEQUENCE_RANGE, sequence % SEQUENCE_RANGE;
    assert sequence == high * SEQUENCE_RANGE + low;
    assert sequence * SEQUENCE_UNIT == high * WORD_RANGE + low * SEQUENCE_UNIT;
  }

  /** Every field is read back unchanged, except that a sequence is read back
      modulo 2^48. */
  lemma WordRoundTrip(sequence: nat, satisfied: nat, state: nat)
    requires state < STATE_RANGE
    ensures var word := Word(sequence, satisfied, state);
            && WordState(word) == state
            && WordSatisfied(word) == satisfied % STATE_RANGE
            && WordSequence(word) == sequence % SEQUENCE_RANGE
  {
    ShiftDropsHighBits(sequence);
  }

  lemma PhaseCodeInjective(a: Phase, b: Phase)
    ensures PhaseCode(a) == PhaseCode(b) <==> a == b
  {}

  lemma BitsInjective(a: Mask, b: Mask)
    ensures a.Bits() < STATE_RANGE
    ensures a.Bits() == b.Bits() <==> a == b
  {}

  /** Two records share a word exactly when they agree on phase and mask and
      their sequences agree modulo 2^48. A compare-exchange of words is therefore
      a compare-exchange of records as long as fewer than 2^48 sequence bumps
      separate them, and only then. */
  lemma SameWordIff(a: Record, b: Record)
    ensures Pack(a) == Pack(b) <==>
            a.phase == b.phase && a.satisfied == b.satisfied
            && a.sequence % SEQUENCE_RANGE == b.sequence % SEQUENCE_RANGE
  {
    WordRoundTrip(a.sequence, a.satisfied.Bits(), PhaseCode(a.phase));
    WordRoundTrip(b.sequence, b.satisfied.Bits(), PhaseCode(b.phase));
    ShiftDropsHighBits(a.sequence);
    ShiftDropsHighBits(b.sequence);
    PhaseCodeInjective(a.phase, b.phase);
    BitsInjective(a.satisfied, b.satisfied);
    BitsInjective(b.satisfied, a.satisfied);
  }

  /** The aliasing the bound rules out: 2^48 bumps later the same word returns. */
  lemma SequenceWrapAliases(r: Record)
    ensures Pack(r) == Pack(r.(sequence := r.sequence + SEQUENCE_RANGE))
  {
    SameWordIff(r, r.(sequence := r.sequence + SEQUENCE_RANGE));
  }

  lemma RecordRoundTrip(r: Record)
    ensures WordState(Pack(r)) == PhaseCode(r.phase)
    ensures WordSatisfied(Pack(r)) == r.satisfied.Bits()
    ensures WordSequence(Pack(r)) == r.sequence <==> r.sequence < SEQUENCE_RANGE
  {
    WordRoundTrip(r.sequence, r.satisfied.Bits(), PhaseCode(r.phase));
    BitsInjective(r.satisfied, r.satisfied);
  }
}
