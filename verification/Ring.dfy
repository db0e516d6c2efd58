/** Index arithmetic of a NetAdapterCx ring: validity, increment, bulk advance and
    element offsets, all through the element index mask. */
module Ring {
  import opened Wrappers

  const WORD: nat := 0x1_0000_0000

  /** The parts of NET_RING the driver reads: 32-bit count and mask, 16-bit stride. */
  datatype NetRing = NetRing(count: nat, mask: nat, stride: nat)

  /** Bitwise and of two naturals. */
  function And(a: nat, b: nat): (c: nat)
    ensures c <= b
  {
    if a == 0 || b == 0 then 0 else 2 * And(a / 2, b / 2) + (a % 2) * (b % 2)
  }

  predicate IsValid(ring: NetRing) {
    ring.count != 0 && ring.mask == ring.count - 1 && ring.stride != 0
  }

  /** No bit of the index lies outside the mask. */
  predicate Fits(ring: NetRing, index: nat) {
    And(index, ring.mask) == index
  }

  function Increment(ring: NetRing, index: nat): Option<nat> {
    if !IsValid(ring) || !Fits(ring, index) then None else Some(And(index + 1, ring.mask))
  }

  /** The addition wraps at 32 bits before the mask is applied. */
  function Advance(ring: NetRing, index: nat, count: nat): Option<nat> {
    if !IsValid(ring) || !Fits(ring, index) then None
    else Some(And((index + count) % WORD, ring.mask))
  }

  /** Byte offset of the element, if the ring can address one of that size there. */
  function ElementAt(ring: NetRing, index: nat, minimumSize: nat): Option<nat> {
    if !IsValid(ring) || minimumSize > ring.stride || !Fits(ring, index) then None
    else Some(And(index, ring.mask) * ring.stride)
  }

  // ----- masks and powers of two -----

  predicate IsPower(n: nat) {
    if n <= 1 then n == 1 else n % 2 == 0 && IsPower(n / 2)
  }

  /** The fixed geometry NetAdapterCx promises: a power-of-two ring with a 32-bit count. */
  predicate WellShaped(ring: NetRing) {
    IsValid(ring) && IsPower(ring.count) && ring.count < WORD
  }

  lemma DoubleMod(a: nat, m: nat)
    requires m > 0
    ensures a % (2 * m) == 2 * ((a / 2) % m) + a % 2
  {
    var q, r := (a / 2) / m, (a / 2) % m;
    assert a == 2 * (q * m + r) + a % 2;
    assert 2 * (q * m) == q * (2 * m);
    assert a == q * (2 * m) + (2 * r + a % 2);
    ModUnique(a, 2 * m, q, 2 * r + a % 2);
  }

  /** A multiple of `m` is at least `m` away from zero, or zero. */
  lemma MultipleApart(d: int, m: nat)
    ensures d >= 1 ==> d * m >= m
    ensures d <= -1 ==> d * m <= 0 - m
  {
    if d >= 1 {
      assert (d - 1) * m >= 0;
    } else if d <= -1 {
      assert (0 - 1 - d) * m >= 0;
    }
  }

  lemma ModUnique(a: nat, m: nat, q: nat, r: nat)
    requires m > 0 && a == q * m + r && r < m
    ensures a % m == r
  {
    var d := a / m - q;
    assert d * m == r - a % m by {
      assert (a / m - q) * m == (a / m) * m - q * m;
    }
    MultipleApart(d, m);
  }

  lemma NextRemainder(a: nat, n: nat)
    requires n > 0
    ensures (a + 1) % n == if a % n + 1 == n then 0 else a % n + 1
  {
    var q, r := a / n, a % n;
    if r + 1 == n {
      assert (q + 1) * n == q * n + n;
      ModUnique(a + 1, n, q + 1, 0);
    } else {
      ModUnique(a + 1, n, q, r + 1);
    }
  }

  /** Masking with one less than a power of two is the remainder. */
  lemma {:induction false} MaskIsRemainder(a: nat, n: nat)
    requires IsPower(n)
    ensures And(a, n - 1) == a % n
  {
    if n > 1 {
      MaskIsRemainder(a / 2, n / 2);
      DoubleMod(a, n / 2);
      assert (n - 1) / 2 == n / 2 - 1 && (n - 1) % 2 == 1;
    }
  }

  predicate FitsMask(index: nat, mask: nat) {
    And(index, mask) == index
  }

  /** Every index up to the mask fits it only when the count is a power of two. */
  lemma {:induction false} AllFitOnlyIfPower(mask: nat)
    requires forall i: nat :: i <= mask ==> FitsMask(i, mask)
    ensures IsPower(mask + 1)
  {
    if mask > 0 {
      assert FitsMask(1, mask);
      assert mask % 2 == 1;
      var half := mask / 2;
      forall i: nat | i <= half ensures FitsMask(i, half) {
        assert FitsMask(2 * i, mask);
        assert (2 * i) / 2 == i && (2 * i) % 2 == 0;
      }
      AllFitOnlyIfPower(half);
      assert mask + 1 == 2 * (half + 1);
    }
  }

  // ----- what the index functions compute -----

  /** The index `steps` further round a ring of `count` elements, less than a lap on. */
  function Around(index: nat, steps: nat, count: nat): (next: nat)
    requires index < count && steps <= count
    ensures next < count
  {
    if index + steps < count then index + steps else index + steps - count
  }

  lemma AroundIsRemainder(index: nat, steps: nat, count: nat)
    requires index < count && steps <= count
    ensures Around(index, steps, count) == (index + steps) % count
  {
    ModUnique(index + steps, count, if index + steps < count then 0 else 1, Around(index, steps, count));
  }

  /** How many increments lead from `begin` to `end`. */
  function Distance(begin: nat, end: nat, count: nat): (d: nat)
    requires begin < count && end < count
    ensures d < count && Around(begin, d, count) == end
  {
    if begin <= end then end - begin else end + count - begin
  }

  lemma OneFurther(begin: nat, k: nat, end: nat, count: nat)
    requires begin < count && k < count && end < count && Around(begin, k, count) != end
    ensures Around(Around(begin, k, count), 1, count) == Around(begin, k + 1, count)
    ensures Distance(Around(begin, k, count), end, count) == 1 + Distance(Around(begin, k + 1, count), end, count)
  {}

  /** A fit is an index below the count. */
  lemma FitsIffBelow(ring: NetRing, index: nat)
    requires WellShaped(ring)
    ensures Fits(ring, index) <==> index < ring.count
  {
    MaskIsRemainder(index, ring.count);
    if index < ring.count { ModUnique(index, ring.count, 0, index); }
  }

  /** Increment walks round the ring: one further, or back to the start. */
  lemma IncrementGoesRound(ring: NetRing, index: nat)
    requires WellShaped(ring) && index < ring.count
    ensures Increment(ring, index) == Some(Around(index, 1, ring.count))
  {
    FitsIffBelow(ring, index);
    MaskIsRemainder(index + 1, ring.count);
    if index + 1 == ring.count {
      ModUnique(index + 1, ring.count, 1, 0);
    } else {
      ModUnique(index + 1, ring.count, 0, index + 1);
    }
  }

  /** A valid ring serves every index below its count with its cyclic successor if and
      only if the count is a power of two. The validity test alone does not ensure it. */
  lemma IncrementIsCyclicIffPower(ring: NetRing)
    requires IsValid(ring) && ring.count < WORD
    ensures IsPower(ring.count) <==>
            forall i: nat :: i < ring.count ==>
              Increment(ring, i) == Some(Around(i, 1, ring.count))
  {
    if IsPower(ring.count) {
      forall i: nat | i < ring.count
        ensures Increment(ring, i) == Some(Around(i, 1, ring.count))
      {
        IncrementGoesRound(ring, i);
      }
    } else if forall i: nat :: i < ring.count ==>
                Increment(ring, i) == Some(Around(i, 1, ring.count)) {
      forall i: nat | i <= ring.mask ensures FitsMask(i, ring.mask) {
        assert Increment(ring, i).Some?;
      }
      AllFitOnlyIfPower(ring.mask);
    }
  }

  /** A ring the driver accepts on which increment never leaves element 0. */
  lemma ThreeElementRingSticks()
    ensures var ring := NetRing(3, 2, 16); IsValid(ring) && Increment(ring, 0) == Some(0)
  {
    assert And(1, 2) == 2 * And(0, 1) + 1 * 0;
  }

  /** `index` after `count` single increments. */
  function Walk(ring: NetRing, index: nat, count: nat): Option<nat> {
    if count == 0 then Some(index)
    else
      var before := Walk(ring, index, count - 1);
      if before == None then None else Increment(ring, before.value)
  }

  lemma IncrementRemainder(ring: NetRing, a: nat)
    requires WellShaped(ring)
    ensures Increment(ring, a % ring.count) == Some((a + 1) % ring.count)
  {
    IncrementGoesRound(ring, a % ring.count);
    NextRemainder(a, ring.count);
  }

  lemma {:induction false} WalkIsRemainder(ring: NetRing, index: nat, count: nat)
    requires WellShaped(ring) && index < ring.count
    ensures Walk(ring, index, count) == Some((index + count) % ring.count)
  {
    if count == 0 {
      ModUnique(index, ring.count, 0, index);
    } else {
      WalkIsRemainder(ring, index, count - 1);
      IncrementRemainder(ring, index + count - 1);
    }
  }

  lemma Regroup(q: nat, times: nat, q2: nat, n: nat)
    ensures q * (n * times) + q2 * n == (q * times + q2) * n
  {
    assert q * (n * times) == (q * times) * n;
  }

  /** Reducing first modulo a multiple changes no remainder. */
  lemma NestedRemainder(a: nat, n: nat, m: nat, times: nat)
    requires n > 0 && m > 0 && m == n * times
    ensures (a % m) % n == a % n
  {
    var q, r := a / m, a % m;
    Regroup(q, times, r / n, n);
    ModUnique(a, n, q * times + r / n, r % n);
  }

  function Power(k: nat): (n: nat)
    ensures n > 0
  {
    if k == 0 then 1 else 2 * Power(k - 1)
  }

  /** A power of two no greater than another divides it. */
  lemma {:induction false} PowerDivides(n: nat, k: nat) returns (times: nat)
    requires IsPower(n) && n <= Power(k)
    ensures times > 0 && Power(k) == n * times
  {
    if n == 1 {
      times := Power(k);
    } else {
      times := PowerDivides(n / 2, k - 1);
      assert n == 2 * (n / 2);
      assert n * times == 2 * ((n / 2) * times);
    }
  }

  lemma WordIsPower()
    ensures Power(32) == WORD
  {
    assert Power(8) == 0x100;
    assert Power(16) == 0x1_0000 by { assert Power(12) == 0x1000; }
    assert Power(24) == 0x100_0000 by { assert Power(20) == 0x10_0000; }
    assert Power(28) == 0x1000_0000;
  }

  /** The single bulk step of the packet loops lands where stepping over the fragments
      one at a time does, in spite of the 32-bit wrap of its addition. */
  lemma AdvanceIsWalk(ring: NetRing, index: nat, count: nat)
    requires WellShaped(ring) && index < ring.count
    ensures Advance(ring, index, count) == Walk(ring, index, count)
    ensures Advance(ring, index, count) == Some((index + count) % ring.count)
    ensures count <= ring.count ==> Advance(ring, index, count) == Some(Around(index, count, ring.count))
  {
    if count <= ring.count { AroundIsRemainder(index, count, ring.count); }
    FitsIffBelow(ring, index);
    WalkIsRemainder(ring, index, count);
    MaskIsRemainder((index + count) % WORD, ring.count);
    WordIsPower();
    var times := PowerDivides(ring.count, 32);
    NestedRemainder(index + count, ring.count, WORD, times);
  }

  lemma NextMultiple(i: nat, j: nat, s: nat)
    requires i < j
    ensures i * s + s <= j * s
  {
    var d: nat := j - i - 1;
    assert j * s == i * s + s + d * s;
  }

  /** Distinct indices below the count address disjoint elements inside the buffer. */
  lemma ElementsDisjoint(ring: NetRing, i: nat, j: nat, size: nat)
    requires WellShaped(ring) && size <= ring.stride && i < j < ring.count
    ensures ElementAt(ring, i, size).Some? && ElementAt(ring, j, size).Some?
    ensures ElementAt(ring, i, size).value + size <= ElementAt(ring, j, size).value
    ensures ElementAt(ring, j, size).value + size <= ring.count * ring.stride
  {
    FitsIffBelow(ring, i);
    FitsIffBelow(ring, j);
    NextMultiple(i, j, ring.stride);
    NextMultiple(j, ring.count, ring.stride);
  }
}
