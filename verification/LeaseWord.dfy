/** The packet-callback lease word: three admission closers above a lease count. */
module LeaseWord {

  /** The quiesce scopes; each owns one closer bit. */
  datatype Scope = Power | Hardware | Owner

  datatype Lease = Lease(count: nat, power: bool, hardware: bool, owner: bool) {

    predicate Closed() { power || hardware || owner }

    predicate ClosedBy(scope: Scope) {
      match scope
      case Power => power
      case Hardware => hardware
      case Owner => owner
    }

    function Close(scope: Scope): Lease {
      match scope
      case Power => this.(power := true)
      case Hardware => this.(hardware := true)
      case Owner => this.(owner := true)
    }

    function Resume(scope: Scope): Lease {
      match scope
      case Power => this.(power := false)
      case Hardware => this.(hardware := false)
      case Owner => this.(owner := false)
    }
  }

  const COUNT_RANGE := 0x2000_0000_0000_0000
  const MAXIMUM_COUNT := COUNT_RANGE - 1
  const WORD_RANGE := 0x1_0000_0000_0000_0000

  function ScopeBit(scope: Scope): (bit: nat) {
    match scope
    case Power => 0x8000_0000_0000_0000
    case Hardware => 0x4000_0000_0000_0000
    case Owner => 0x2000_0000_0000_0000
  }

  function Pack(l: Lease): (word: nat) {
    l.count
    + (if l.owner then ScopeBit(Owner) else 0)
    + (if l.hardware then ScopeBit(Hardware) else 0)
    + (if l.power then ScopeBit(Power) else 0)
  }

  // The atomic operations on 64-bit words. Setting or clearing one bit is
  // addition or subtraction of it when it is clear or set.

  predicate HasBit(word: nat, bit: nat)
    requires bit > 0
  {
    word / bit % 2 == 1
  }

  function FetchOr(word: nat, bit: nat): nat
    requires bit > 0
  {
    if HasBit(word, bit) then word else word + bit
  }

  function FetchAndNot(word: nat, bit: nat): int
    requires bit > 0
  {
    if HasBit(word, bit) then word - bit else word
  }

  function FetchSubOne(word: nat): nat {
    if word == 0 then WORD_RANGE - 1 else word - 1
  }

  function CountOf(word: nat): nat { word % COUNT_RANGE }

  predicate ClosedOf(word: nat) { word / COUNT_RANGE != 0 }

  lemma PackFields(l: Lease)
    requires l.count < COUNT_RANGE
    ensures Pack(l) < WORD_RANGE
    ensures CountOf(Pack(l)) == l.count
    ensures ClosedOf(Pack(l)) <==> l.Closed()
  {}

  lemma PackBit(l: Lease, scope: Scope)
    requires l.count < COUNT_RANGE
    ensures HasBit(Pack(l), ScopeBit(scope)) <==> l.ClosedBy(scope)
  {
    match scope
    case Power =>
    case Hardware =>
    case Owner =>
  }

  /** A word stands for one lease record, so comparing words compares records. */
  lemma PackInjective(a: Lease, b: Lease)
    requires a.count < COUNT_RANGE && b.count < COUNT_RANGE
    ensures Pack(a) == Pack(b) <==> a == b
  {
    PackFields(a);
    PackFields(b);
    PackBit(a, Power);
    PackBit(b, Power);
    PackBit(a, Hardware);
    PackBit(b, Hardware);
    PackBit(a, Owner);
    PackBit(b, Owner);
  }

  /** Granting a lease below the maximum adds one to the count and leaves every closer. */
  lemma AcquireCommutes(l: Lease)
    requires l.count < MAXIMUM_COUNT
    ensures Pack(l) + 1 == Pack(l.(count := l.count + 1))
  {}

  /** Closing and resuming a scope change that scope's bit and nothing else, however
      often they are repeated. */
  lemma ScopeCommutes(l: Lease, scope: Scope)
    requires l.count < COUNT_RANGE
    ensures FetchOr(Pack(l), ScopeBit(scope)) == Pack(l.Close(scope))
    ensures FetchAndNot(Pack(l), ScopeBit(scope)) == Pack(l.Resume(scope))
  {
    PackBit(l, scope);
  }

  /** Dropping a lease is exact if and only if one is held: with the count at zero the
      subtraction would borrow from the closers. */
  lemma ReleaseCommutesIff(l: Lease)
    requires l.count < COUNT_RANGE
    ensures l.count > 0 ==> FetchSubOne(Pack(l)) == Pack(l.(count := l.count - 1))
    ensures l.count > 0 <==> FetchSubOne(Pack(l)) / COUNT_RANGE == Pack(l) / COUNT_RANGE
  {}
}
