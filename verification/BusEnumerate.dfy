/** Paged enumeration of the children through a caller-sized buffer and a cursor. */
module BusEnumerate {
  import opened Wrappers
  import opened BusChildren
  import opened BusList

  const HEADER_SIZE: nat := 32
  const RECORD_SIZE: nat := 560
  const MAX_OUTPUT: nat := 65_536
  const CURSOR_RANGE: nat := 0x1_0000_0000

  datatype Refusal = BufferTooSmall

  /** Records that fit after the header. */
  function Capacity(outputLength: nat): nat
    requires HEADER_SIZE <= outputLength
  {
    (outputLength - HEADER_SIZE) / RECORD_SIZE
  }

  predicate LegalOutput(outputLength: nat) {
    HEADER_SIZE + RECORD_SIZE <= outputLength <= MAX_OUTPUT
  }

  /** Every record slot lies inside the output buffer. */
  lemma RecordInside(outputLength: nat, k: nat)
    requires LegalOutput(outputLength) && k < Capacity(outputLength)
    ensures HEADER_SIZE + k * RECORD_SIZE + RECORD_SIZE <= outputLength
  {}

  /** No more records would fit. */
  lemma CapacityIsLargest(outputLength: nat, n: nat)
    requires HEADER_SIZE <= outputLength
    ensures n <= Capacity(outputLength) <==> HEADER_SIZE + n * RECORD_SIZE <= outputLength
  {}

  datatype Page = Page(records: seq<Child>, next: nat)

  /** A 32-bit index that stops at its maximum. */
  function Saturated(index: nat): (cursor: nat)
    ensures cursor < CURSOR_RANGE && cursor <= index
  {
    if index < CURSOR_RANGE then index else CURSOR_RANGE - 1
  }

  /** The records from the cursor on, as many as fit, and where to go on: 0 at the end. */
  function PageOf(children: seq<Child>, cursor: nat, capacity: nat): Page {
    var from := if cursor <= |children| then cursor else |children|;
    var to := if from + capacity <= |children| then from + capacity else |children|;
    Page(children[from..to], if to == |children| then 0 else Saturated(to))
  }

  /** A page has the children from the cursor on, as many as the buffer can hold or as there
      are; and the client is told to stop exactly when the list is exhausted. */
  lemma PageIsFull(children: seq<Child>, cursor: nat, capacity: nat)
    ensures var page := PageOf(children, cursor, capacity);
            var end := cursor + |page.records|;
            && |page.records| <= capacity
            && (page.records != [] ==> end <= |children| && page.records == children[cursor..end])
            && (|page.records| < capacity ==> end >= |children|)
            && (page.next == 0 <==> end >= |children| || (end == 0 && capacity == 0))
  {}

  /** One page: a walk over the list that copies records from the cursor on until the
      buffer is full. */
  method Enumerate(bus: BusState, cursor: nat, outputLength: nat) returns (r: Result<Page, Refusal>)
    requires bus.Valid() && cursor < CURSOR_RANGE
    ensures r == if LegalOutput(outputLength) then Ok(PageOf(bus.Contents, cursor, Capacity(outputLength)))
                 else Err(BufferTooSmall)
  {
    if outputLength < HEADER_SIZE + RECORD_SIZE || outputLength > MAX_OUTPUT {
      return Err(BufferTooSmall);
    }
    var capacity := Capacity(outputLength);
    var records: seq<Child> := [];
    var index := 0;
    var node := bus.children;
    ghost var n, at := |bus.Contents|, 0;
    while node != null && |records| < capacity
      invariant at <= n && node == At(bus.nodes, at) && index == Saturated(at) && |records| <= capacity
      invariant records == if at < cursor then [] else bus.Contents[cursor..at]
      decreases n - at
    {
      var present := node.child.lifecycle != Absent;
      assert present && node.child == bus.Contents[at];
      if at >= cursor {
        assert bus.Contents[cursor..at] + [bus.Contents[at]] == bus.Contents[cursor..at + 1];
      }
      if present && index >= cursor {
        RecordInside(outputLength, |records|);
        records := records + [node.child];
      }
      if present {
        index := if index + 1 < CURSOR_RANGE then index + 1 else index;
      }
      node := node.next;
      at := at + 1;
    }
    assert node == null <==> at == n;
    if cursor >= n {
      assert bus.Contents[n..n] == [];
    } else {
      assert at == (if cursor + capacity <= n then cursor + capacity else n);
    }
    return Ok(Page(records, if node == null then 0 else index));
  }

  // ----- following the cursor -----

  /** What a client has after some pages: the records, the cursor and whether it was told to
      stop. */
  datatype Progress = Progress(records: seq<Child>, cursor: nat, done: bool)

  ghost predicate LegalSizes(sizes: nat -> nat) {
    forall i: nat :: LegalOutput(sizes(i))
  }

  /** After `k` pages, with any legal buffer each time. */
  ghost function Follow(children: seq<Child>, sizes: nat -> nat, k: nat): Progress
    requires LegalSizes(sizes)
  {
    if k == 0 then Progress([], 0, false)
    else
      var before := Follow(children, sizes, k - 1);
      assert LegalOutput(sizes(k - 1));
      if before.done then before
      else
        var page := PageOf(children, before.cursor, Capacity(sizes(k - 1)));
        Progress(before.records + page.records, page.next, page.next == 0)
  }

  /** Following the cursor ends with every child once, in list order. */
  ghost predicate Completes(children: seq<Child>, sizes: nat -> nat)
    requires LegalSizes(sizes)
  {
    exists k: nat :: Follow(children, sizes, k).done && Follow(children, sizes, k).records == children
  }

  /** A page moves the cursor on by the records it returned. */
  lemma PageMovesOn(children: seq<Child>, cursor: nat, capacity: nat)
    requires cursor <= |children| <= CURSOR_RANGE && capacity > 0
    ensures var page := PageOf(children, cursor, capacity);
            if page.next == 0 then children[..cursor] + page.records == children
            else cursor < page.next <= |children| && children[..cursor] + page.records == children[..page.next]
  {
    var to := cursor + |PageOf(children, cursor, capacity).records|;
    assert children[..cursor] + children[cursor..to] == children[..to];
    assert children[..|children|] == children;
  }

  lemma {:induction false} FollowsInOrder(children: seq<Child>, sizes: nat -> nat, k: nat)
    requires LegalSizes(sizes) && |children| <= CURSOR_RANGE
    ensures var now := Follow(children, sizes, k);
            if now.done then now.records == children
            else k <= now.cursor <= |children| && now.records == children[..now.cursor]
  {
    if k > 0 {
      FollowsInOrder(children, sizes, k - 1);
      var before := Follow(children, sizes, k - 1);
      assert LegalOutput(sizes(k - 1));
      if !before.done {
        PageMovesOn(children, before.cursor, Capacity(sizes(k - 1)));
      }
    }
  }

  /** With room for one record the cursor stops at its maximum. */
  lemma {:induction false} FollowSticks(children: seq<Child>, k: nat)
    requires |children| > CURSOR_RANGE
    ensures LegalSizes((_: nat) => HEADER_SIZE + RECORD_SIZE)
    ensures var now := Follow(children, (_: nat) => HEADER_SIZE + RECORD_SIZE, k);
            !now.done && now.cursor == Saturated(k)
  {
    if k > 0 {
      FollowSticks(children, k - 1);
    }
  }

  /** Enumeration is complete for every choice of legal buffers exactly when the list has no
      more children than there are cursors. */
  lemma EnumerationIsCompleteIff(children: seq<Child>)
    ensures (forall sizes: nat -> nat :: LegalSizes(sizes) ==> Completes(children, sizes)) <==> |children| <= CURSOR_RANGE
  {
    if |children| <= CURSOR_RANGE {
      forall sizes: nat -> nat | LegalSizes(sizes) ensures Completes(children, sizes) {
        FollowsInOrder(children, sizes, |children| + 1);
        assert Follow(children, sizes, |children| + 1).done;
      }
    } else {
      var single := (_: nat) => HEADER_SIZE + RECORD_SIZE;
      FollowSticks(children, 0);
      forall k: nat ensures !Follow(children, single, k).done {
        FollowSticks(children, k);
      }
      assert !Completes(children, single);
    }
  }
}
