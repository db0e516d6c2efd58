/** What the replies of a run rest on. Every answer goes back to a publication; from there
    on its bits held in some state, or a callback carried them across the publication; and
    no bit that was claimed for it, or that its worker saw, is missing. */
module WaitGrounds {
  import opened WaitRecord
  import opened WaitModel
  import opened WaitOwnership
  import opened WaitWakeup
  import opened WaitAnswers
  import Runs

  const ALL_BITS := Mask(true, true)

  // ----- where replies come from -----

  predicate JustPublished(s: State, s': State, t: Tid) {
    && s.rec.word.phase == Registering && s'.rec.word.phase == Pending && s'.rec.word.satisfied.Empty()
    && t in s'.threads && s'.threads[t].Publish? && s'.threads[t].pub.SnapCaptureGen?
  }

  /** A step makes a reply only out of one, or out of a wait it takes over; and it makes a
      wait claimable only by publishing it. */
  predicate Descends(s: State, s': State, t: Tid)
    requires t in s.threads
  {
    && OthersStay(s, s', t)
    && (s'.rec.slot != s.rec.slot ==> Holds(s.threads[t]))
    && (Claimable(s'.rec.word.phase) ==>
          && s'.rec.slot == s.rec.slot
          && s'.rec.word.sequence == s.rec.word.sequence
          && (Claimable(s.rec.word.phase) || JustPublished(s, s', t)))
    && (t in s'.threads ==>
          var h := Replies(s'.threads[t], s'.rec.slot).0;
          h == NULL || h == Replies(s.threads[t], s.rec.slot).0 || Claims(s.rec, h))
  }

  lemma RegisterDescends(s: State, t: Tid, g: Handle, want: Mask, at: RegisterAt, ok: bool)
    requires Knows(s, t) && s.threads[t] == Register(g, want, at)
    ensures Descends(s, RegisterStep(s, t, g, want, at, ok), t)
  {}

  lemma PublishDescends(s: State, t: Tid, g: Handle, want: Mask, at: PublishAt, ok: bool)
    requires Knows(s, t) && s.threads[t] == Publish(g, want, at)
    ensures Descends(s, PublishStep(s, t, g, want, at, ok), t)
  {}

  lemma ClaimDescends(s: State, t: Tid, cond: Mask, expected: Handle, back: Resume, at: ClaimAt, ok: bool)
    requires Knows(s, t) && s.threads[t] == Claim(cond, expected, back, at)
    ensures Descends(s, ClaimStep(s, t, cond, expected, back, at, ok), t)
  {}

  lemma FinishDescends(s: State, t: Tid, after: After, at: FinishAt)
    requires Knows(s, t) && s.threads[t] == Finish(after, at)
    ensures Descends(s, FinishStep(s, t, after, at), t)
  {}

  lemma CompleteDescends(s: State, t: Tid, g: Handle, outcome: Outcome, ok: bool)
    requires Knows(s, t) && s.threads[t] == Complete(g, outcome)
    ensures Descends(s, CompleteStep(s, t, g, outcome, ok), t)
  {}

  lemma UnmarkDescends(s: State, t: Tid, g: Handle, at: UnmarkAt, ok: bool)
    requires Knows(s, t) && s.threads[t] == Unmark(g, at)
    ensures Descends(s, UnmarkStep(s, t, g, at, ok), t)
  {}

  lemma TeardownDescends(s: State, t: Tid, at: TeardownAt, ok: bool)
    requires Knows(s, t) && s.threads[t] == Tear(at)
    ensures Descends(s, TeardownStep(s, t, at, ok), t)
  {}

  lemma WorkerDescends(s: State, t: Tid, at: WorkAt, ok: bool)
    requires Knows(s, t) && s.threads[t] == Work(at)
    ensures Descends(s, WorkerStep(s, t, at, ok), t)
  {}

  lemma CancelDescends(s: State, t: Tid, g: Handle, at: CancelAt, ok: bool)
    requires Knows(s, t) && s.threads[t] == Cancelling(g, at)
    ensures Descends(s, CancelStep(s, t, g, at, ok), t)
  {}

  lemma PacketDescends(s: State, t: Tid, at: PacketAt, ok: bool)
    requires Knows(s, t) && s.threads[t] == Packet(at)
    ensures Descends(s, PacketStep(s, t, at, ok), t)
  {}

  lemma ThreadDescends(s: State, t: Tid, ok: bool)
    requires Knows(s, t)
    ensures Descends(s, ThreadStep(s, t, ok), t)
  {
    match s.threads[t]
    case Register(g, want, at) => RegisterDescends(s, t, g, want, at, ok);
    case Publish(g, want, at) => PublishDescends(s, t, g, want, at, ok);
    case Claim(cond, expected, back, at) => ClaimDescends(s, t, cond, expected, back, at, ok);
    case Finish(after, at) => FinishDescends(s, t, after, at);
    case Complete(g, outcome) => CompleteDescends(s, t, g, outcome, ok);
    case Unmark(g, at) => UnmarkDescends(s, t, g, at, ok);
    case Tear(at) => TeardownDescends(s, t, at, ok);
    case Work(at) => WorkerDescends(s, t, at, ok);
    case Cancelling(g, at) => CancelDescends(s, t, g, at, ok);
    case Packet(at) => PacketDescends(s, t, at, ok);
  }

  lemma StepOf(run: seq<State>, i: nat) returns (a: Action)
    requires IsRun(run) && i + 1 < |run|
    ensures Enabled(run[i], a) && run[i + 1] == Exec(run[i], a)
  {
    StepOfRun(run, i);
    a :| Enabled(run[i], a) && run[i + 1] == Exec(run[i], a);
  }

  lemma RunStaysGood(run: seq<State>, i: nat)
    requires IsRun(run) && i < |run|
    ensures Good(run[i])
  {
    RunKeepsInv(run, i);
    RunStaysAwake(run, i);
  }

  // ----- publications -----

  predicate Publishes(s: State, s': State, h: Handle) {
    s.rec.word.phase == Registering && s'.rec.word.phase == Pending && s'.rec.slot == h
  }

  predicate Published(run: seq<State>, p: nat, h: Handle) {
    0 < p < |run| && Publishes(run[p - 1], run[p], h)
  }

  predicate LiveFrom(run: seq<State>, p: nat, i: nat, h: Handle) {
    p <= i < |run| && forall k :: p <= k <= i ==> h in run[k].requests
  }

  lemma ClaimsBefore(s: State, s': State, h: Handle)
    requires Inv(s) && Next(s, s') && Claims(s'.rec, h)
    ensures Claims(s.rec, h) || Publishes(s, s', h)
  {
    var a :| Enabled(s, a) && s' == Exec(s, a);
    if a.Step? {
      InvKnows(s, a.t);
      ThreadDescends(s, a.t, a.ok);
    } else {
      ActionOutside(s, a, h);
    }
  }

  lemma ClaimsIsLive(s: State, h: Handle)
    requires Inv(s) && Claims(s.rec, h)
    ensures h != NULL && h in s.requests && s.requests[h].status != Owned && s.requests[h].want == s.rec.interest
  {
    assert RequestOk(s.rec, s.threads, h, s.requests[h]);
  }

  lemma ClaimedSince(run: seq<State>, i: nat, h: Handle)
    requires IsRun(run) && i < |run| && Claims(run[i].rec, h)
    ensures h in run[i].requests && i > 0 && (Claims(run[i - 1].rec, h) || Publishes(run[i - 1], run[i], h))
  {
    RunKeepsInv(run, i);
    ClaimsIsLive(run[i], h);
    if i > 0 {
      RunKeepsInv(run, i - 1);
      StepOfRun(run, i - 1);
      ClaimsBefore(run[i - 1], run[i], h);
    }
  }

  /** A claimable wait was published, and its request has been live since. */
  lemma {:induction false} FindPublication(run: seq<State>, i: nat, h: Handle) returns (p: nat)
    requires IsRun(run) && i < |run| && Claims(run[i].rec, h)
    ensures p <= i && Published(run, p, h) && LiveFrom(run, p, i, h)
    decreases i
  {
    ClaimedSince(run, i, h);
    if Claims(run[i - 1].rec, h) {
      p := FindPublication(run, i - 1, h);
    } else {
      p := i;
    }
  }

  lemma ReplyIsLive(s: State, t: Tid)
    requires Inv(s) && t in s.threads && Replies(s.threads[t], s.rec.slot).0 != NULL
    ensures Replies(s.threads[t], s.rec.slot).0 in s.requests
    ensures Taken(s.threads[t]) ==> s.audit.holder == Owed(t)
  {
    assert ThreadOk(s, t);
  }

  /** What a thread was before an action: as it is, unless it took the step itself. */
  lemma ThreadBefore(s: State, s': State, t: Tid, h: Handle)
    requires Inv(s) && Inv(s') && Next(s, s') && t in s'.threads && h != NULL && Replies(s'.threads[t], s'.rec.slot).0 == h
    ensures t in s.threads && (Replies(s.threads[t], s.rec.slot).0 == h || Claims(s.rec, h))
  {
    var a :| Enabled(s, a) && s' == Exec(s, a);
    if a.Step? {
      InvKnows(s, a.t);
      ThreadDescends(s, a.t, a.ok);
      if a.t != t {
        Others(s, s', a.t, t);
        ReplyIsLive(s', t);
        if Taken(s.threads[t]) {
          assert ThreadOk(s, t) && ThreadOk(s, a.t);
        }
      }
    } else {
      ActionOutside(s, a, h);
    }
  }

  lemma RepliedSince(run: seq<State>, i: nat, t: Tid, h: Handle)
    requires IsRun(run) && i < |run| && t in run[i].threads && h != NULL && Replies(run[i].threads[t], run[i].rec.slot).0 == h
    ensures h in run[i].requests && i > 0 && t in run[i - 1].threads
    ensures Replies(run[i - 1].threads[t], run[i - 1].rec.slot).0 == h || Claims(run[i - 1].rec, h)
  {
    RunKeepsInv(run, i);
    ReplyIsLive(run[i], t);
    if i > 0 {
      RunKeepsInv(run, i - 1);
      StepOfRun(run, i - 1);
      ThreadBefore(run[i - 1], run[i], t, h);
    }
  }

  /** A reply in the making goes back to a publication. */
  lemma {:induction false} FindReply(run: seq<State>, i: nat, t: Tid, h: Handle) returns (p: nat)
    requires IsRun(run) && i < |run| && t in run[i].threads && h != NULL && Replies(run[i].threads[t], run[i].rec.slot).0 == h
    ensures p <= i && Published(run, p, h) && LiveFrom(run, p, i, h)
    decreases i
  {
    RepliedSince(run, i, t, h);
    if Claims(run[i - 1].rec, h) {
      p := FindPublication(run, i - 1, h);
    } else {
      p := FindReply(run, i - 1, t, h);
    }
  }

  // ----- answers -----

  lemma CompletingAnswers(s: State, t: Tid, ok: bool)
    requires t in s.threads
    requires s.threads[t].Complete?
    ensures var s', h := ThreadStep(s, t, ok), s.threads[t].h;
            s'.audit.answers != s.audit.answers ==>
              && h in s.requests && h !in s'.requests && s.threads[t].outcome.Reply?
              && Answered(s, s', Answer(s.requests[h].want, s.threads[t].outcome.satisfied))
  {}

  lemma RegistrarKeepsAnswers(s: State, t: Tid, ok: bool)
    requires t in s.threads
    requires s.threads[t].Register? || s.threads[t].Publish? || s.threads[t].Finish?
    ensures ThreadStep(s, t, ok).audit.answers == s.audit.answers
  {}

  lemma ClaimantKeepsAnswers(s: State, t: Tid, ok: bool)
    requires t in s.threads
    requires s.threads[t].Claim? || s.threads[t].Work? || s.threads[t].Packet?
    ensures ThreadStep(s, t, ok).audit.answers == s.audit.answers
  {}

  lemma CancellerKeepsAnswers(s: State, t: Tid, ok: bool)
    requires t in s.threads
    requires s.threads[t].Tear? || s.threads[t].Cancelling? || s.threads[t].Unmark?
    ensures ThreadStep(s, t, ok).audit.answers == s.audit.answers
  {}

  /** Only a completion with a reply answers, and it answers that. */
  lemma AnswersByCompletion(s: State, a: Action)
    requires Inv(s) && Enabled(s, a) && Exec(s, a).audit.answers != s.audit.answers
    ensures a.Step? && s.threads[a.t].Complete? && s.threads[a.t].outcome.Reply?
    ensures var s', h := Exec(s, a), s.threads[a.t].h;
            && h in s.requests && h !in s'.requests
            && Answered(s, s', Answer(s.requests[h].want, s.threads[a.t].outcome.satisfied))
  {
    if !a.Step? {
      ActionOutside(s, a, NULL);
    } else {
      var pc := s.threads[a.t];
      if pc.Complete? {
        CompletingAnswers(s, a.t, a.ok);
      } else if pc.Register? || pc.Publish? || pc.Finish? {
        RegistrarKeepsAnswers(s, a.t, a.ok);
      } else if pc.Claim? || pc.Work? || pc.Packet? {
        ClaimantKeepsAnswers(s, a.t, a.ok);
      } else {
        CancellerKeepsAnswers(s, a.t, a.ok);
      }
    }
  }

  /** The `k`th answer was given by one step of the run, and stands since. */
  lemma {:induction false} AnswerWasGiven(run: seq<State>, i: nat, k: nat) returns (j: nat)
    requires IsRun(run) && i < |run| && k < |run[i].audit.answers|
    ensures j < i && |run[j].audit.answers| == k
    ensures Answered(run[j], run[j + 1], run[i].audit.answers[k])
    decreases i
  {
    assert i > 0;
    RunKeepsInv(run, i - 1);
    var a := StepOf(run, i - 1);
    if run[i].audit.answers != run[i - 1].audit.answers {
      AnswersByCompletion(run[i - 1], a);
    }
    if k < |run[i - 1].audit.answers| {
      j := AnswerWasGiven(run, i - 1, k);
    } else {
      j := i - 1;
    }
  }

  // ----- the bounds along a run -----

  /** The bits that hold in some state from `p` to `i`. */
  function Since(run: seq<State>, p: nat, i: nat): Mask
    requires p <= i < |run|
    decreases i
  {
    if i == p then Ready(run[p].q) else Since(run, p, i - 1).Or(Ready(run[i].q))
  }

  lemma {:induction false} SinceIff(run: seq<State>, p: nat, i: nat)
    requires p <= i < |run|
    ensures Since(run, p, i).readable <==> exists k :: p <= k <= i && Readable(run[k].q)
    ensures Since(run, p, i).writable <==> exists k :: p <= k <= i && Writable(run[k].q)
    decreases i
  {
    if i > p {
      SinceIff(run, p, i - 1);
    }
  }

  lemma WiderBounded(s: State, h: Handle, lo: Mask, hi: Mask, wider: Mask)
    requires Bounded(s, h, lo, hi) && hi.Within(wider)
    ensures Bounded(s, h, lo, wider)
  {
    forall t | t in s.threads ensures ThreadBound(s.rec, h, s.threads[t], lo, wider) {
      WiderBound(s.rec, h, s.threads[t], lo, hi, wider);
      assert hi.Or(wider) == wider;
    }
  }

  lemma NextKeepsBound(s: State, s': State, h: Handle, lo: Mask, hi: Mask)
    requires Good(s) && Next(s, s') && Bounded(s, h, lo, hi)
    ensures if h in s'.requests then Bounded(s', h, lo, hi.Or(Ready(s'.q))) else AnswerBound(s, s', h, lo, hi)
  {
    var a :| Enabled(s, a) && s' == Exec(s, a);
    ActionKeepsBound(s, a, h, lo, hi);
  }

  lemma BoundedOn(run: seq<State>, i: nat, h: Handle, lo: Mask, hi: Mask)
    requires IsRun(run) && i + 1 < |run| && Bounded(run[i], h, lo, hi)
    ensures if h in run[i + 1].requests then Bounded(run[i + 1], h, lo, hi.Or(Ready(run[i + 1].q)))
            else AnswerBound(run[i], run[i + 1], h, lo, hi)
  {
    StepOfRun(run, i);
    RunStaysGood(run, i);
    NextKeepsBound(run[i], run[i + 1], h, lo, hi);
  }

  lemma OrAgain(hi: Mask, since: Mask, now: Mask)
    ensures hi.Or(since).Or(now) == hi.Or(since.Or(now))
  {}

  lemma {:induction false} BoundedAlong(run: seq<State>, c: nat, i: nat, h: Handle, lo: Mask, hi: Mask)
    requires IsRun(run) && LiveFrom(run, c, i, h) && Bounded(run[c], h, lo, hi)
    ensures Bounded(run[i], h, lo, hi.Or(Since(run, c, i)))
    decreases i
  {
    if i == c {
      WiderBounded(run[c], h, lo, hi, hi.Or(Since(run, c, i)));
    } else {
      BoundedAlong(run, c, i - 1, h, lo, hi);
      BoundedOn(run, i - 1, h, lo, hi.Or(Since(run, c, i - 1)));
      OrAgain(hi, Since(run, c, i - 1), Ready(run[i].q));
    }
  }

  /** The answer to `h` is between bounds that hold of some state of its life. */
  lemma AnswerBetween(run: seq<State>, c: nat, j: nat, h: Handle, lo: Mask, hi: Mask)
    requires IsRun(run) && j + 1 < |run| && LiveFrom(run, c, j, h) && Bounded(run[c], h, lo, hi)
    requires h !in run[j + 1].requests && run[j + 1].audit.answers != run[j].audit.answers
    ensures run[j + 1].audit.answers != [] && Answered(run[j], run[j + 1], LastAnswer(run[j + 1]))
    ensures Between(lo, LastAnswer(run[j + 1]).satisfied, hi.Or(Since(run, c, j)))
  {
    BoundedAlong(run, c, j, h, lo, hi);
    BoundedOn(run, j, h, lo, hi.Or(Since(run, c, j)));
  }

  // ----- the bounds at a publication, at a claim and at a worker's look -----

  /** The bits that callbacks can bring to the wait in the record. */
  ghost function InFlight(s: State): Mask {
    Mask(exists t :: t in s.threads && Brings(s.threads[t], s.rec.interest).readable,
         exists t :: t in s.threads && Brings(s.threads[t], s.rec.interest).writable)
  }

  /** Nobody is replying to a wait that can still be claimed. */
  lemma NoReplyWhileClaimable(s: State, h: Handle, t: Tid)
    requires Inv(s) && Claims(s.rec, h) && t in s.threads
    ensures Replies(s.threads[t], s.rec.slot).0 != h
  {
    assert ThreadOk(s, t);
  }

  /** If the claimant has loaded a word, it is one of an earlier registration. */
  predicate LoadedBefore(pc: Pc, word: Record) {
    pc.Claim? && (pc.claim.CheckSlot? || pc.claim.CheckInterest? || pc.claim.CasScheduled?) ==>
      pc.claim.seen.sequence != word.sequence
  }

  /** A claimant that loaded its word before the publication cannot win it. */
  lemma StaleWord(s: State, s': State, t: Tid, u: Tid)
    requires Inv(s) && t in s.threads && Descends(s, s', t) && s.rec.word.phase == Registering && s'.rec.word.phase == Pending
    requires u in s'.threads
    ensures LoadedBefore(s'.threads[u], s'.rec.word)
  {
    if u != t {
      Others(s, s', t, u);
      assert ThreadOk(s, u);
    }
  }

  lemma FreshBound(s: State, h: Handle, u: Tid)
    requires Inv(s) && Claims(s.rec, h) && u in s.threads && LoadedBefore(s.threads[u], s.rec.word)
    ensures ThreadBound(s.rec, h, s.threads[u], NO_BITS, InFlight(s))
  {
    NoReplyWhileClaimable(s, h, u);
  }

  lemma OnlyControlPublishes(s: State, s': State, t: Tid, u: Tid)
    requires Inv(s) && Inv(s') && t in s.threads && Descends(s, s', t) && JustPublished(s, s', t) && u in s'.threads
    ensures t == Control && (s'.threads[u].Publish? ==> s'.threads[u].pub.SnapCaptureGen?)
  {
    assert ThreadOk(s', t) && ThreadOk(s', u);
  }

  lemma PublishedFresh(s: State, s': State, h: Handle, u: Tid)
    requires Inv(s) && Inv(s') && Next(s, s') && Publishes(s, s', h) && u in s'.threads
    ensures LoadedBefore(s'.threads[u], s'.rec.word) && s'.rec.word.satisfied.Empty()
    ensures s'.threads[u].Publish? ==> s'.threads[u].pub.SnapCaptureGen?
    ensures Control in s'.threads && s'.threads[Control].Publish?
  {
    var a :| Enabled(s, a) && s' == Exec(s, a);
    if a.Step? {
      InvKnows(s, a.t);
      ThreadDescends(s, a.t, a.ok);
      StaleWord(s, s', a.t, u);
      OnlyControlPublishes(s, s', a.t, u);
    } else {
      ActionOutside(s, a, h);
    }
  }

  /** Right after its publication a wait can only be told what callbacks carry. */
  lemma PublicationBound(run: seq<State>, p: nat, h: Handle)
    requires IsRun(run) && Published(run, p, h)
    ensures Bounded(run[p], h, NO_BITS, InFlight(run[p]))
  {
    var s, s' := run[p - 1], run[p];
    RunKeepsInv(run, p - 1);
    RunKeepsInv(run, p);
    StepOfRun(run, p - 1);
    ClaimsIsLive(s', h);
    forall u | u in s'.threads ensures ThreadBound(s'.rec, h, s'.threads[u], NO_BITS, InFlight(s')) {
      PublishedFresh(s, s', h, u);
      FreshBound(s', h, u);
    }
  }

  /** What has been claimed for a wait will be in its reply. */
  lemma ClaimedBound(s: State, h: Handle, lo: Mask, hi: Mask)
    requires Inv(s) && Bounded(s, h, lo, hi) && Claims(s.rec, h)
    ensures Bounded(s, h, s.rec.word.satisfied, hi)
  {
    forall t | t in s.threads ensures ThreadBound(s.rec, h, s.threads[t], s.rec.word.satisfied, hi) {
      NoReplyWhileClaimable(s, h, t);
    }
  }

  lemma OneReplies(s: State, h: Handle, t: Tid, u: Tid)
    requires Inv(s) && t in s.threads && u in s.threads && u != t && Taken(s.threads[t]) && h != NULL
    requires Replies(s.threads[t], s.rec.slot).0 == h
    ensures Replies(s.threads[u], s.rec.slot).0 != h && !Claims(s.rec, h)
  {
    assert ThreadOk(s, t) && ThreadOk(s, u);
  }

  /** What a worker has found will be in its reply. */
  lemma FoundBound(s: State, h: Handle, t: Tid, lo: Mask, hi: Mask)
    requires Inv(s) && Bounded(s, h, lo, hi) && t in s.threads && Taken(s.threads[t])
    requires Replies(s.threads[t], s.rec.slot).0 == h
    ensures Bounded(s, h, Found(s.threads[t].wk), hi)
  {
    assert ThreadOk(s, t);
    forall u | u in s.threads ensures ThreadBound(s.rec, h, s.threads[u], Found(s.threads[t].wk), hi) {
      if u != t {
        OneReplies(s, h, t, u);
      }
    }
  }

  // ----- the theorems -----

  /** Step `j` answers request `h`, which was published at `p` and has been live since. */
  predicate Answers(run: seq<State>, p: nat, j: nat, h: Handle) {
    && Published(run, p, h) && LiveFrom(run, p, j, h) && j + 1 < |run|
    && h !in run[j + 1].requests && run[j + 1].audit.answers != run[j].audit.answers
    && run[j + 1].audit.answers != []
  }

  /** Every answer of a run answers a request that was published. */
  lemma AnswerGoesBack(run: seq<State>, i: nat, k: nat) returns (p: nat, j: nat, h: Handle)
    requires IsRun(run) && i < |run| && k < |run[i].audit.answers|
    ensures j < i && Answers(run, p, j, h) && Answered(run[j], run[j + 1], run[i].audit.answers[k])
  {
    j := AnswerWasGiven(run, i, k);
    var a := StepOf(run, j);
    RunKeepsInv(run, j);
    AnswersByCompletion(run[j], a);
    h := run[j].threads[a.t].h;
    ReplyHasHandle(run[j], a.t);
    p := FindReply(run, j, a.t, h);
  }

  lemma ReplyHasHandle(s: State, t: Tid)
    requires Inv(s) && t in s.threads && s.threads[t].Complete?
    ensures s.threads[t].h != NULL
  {
    assert ThreadOk(s, t);
  }

  /** What is answered is true: every bit held in some state since the publication, or a
      callback in flight carried it across the publication. */
  lemma AnswerIsGrounded(run: seq<State>, p: nat, j: nat, h: Handle)
    requires IsRun(run) && Answers(run, p, j, h)
    ensures var a := LastAnswer(run[j + 1]);
            && Answered(run[j], run[j + 1], a) && !a.satisfied.Empty() && a.satisfied.Within(a.want)
            && a.satisfied.Within(Since(run, p, j).Or(InFlight(run[p])))
  {
    PublicationBound(run, p, h);
    AnswerBetween(run, p, j, h, NO_BITS, InFlight(run[p]));
    RunKeepsInv(run, j + 1);
  }

  lemma BoundedSincePublication(run: seq<State>, p: nat, c: nat, h: Handle)
    requires IsRun(run) && Published(run, p, h) && LiveFrom(run, p, c, h)
    ensures Bounded(run[c], h, NO_BITS, ALL_BITS)
  {
    PublicationBound(run, p, h);
    BoundedAlong(run, p, c, h, NO_BITS, InFlight(run[p]));
    WiderBounded(run[c], h, NO_BITS, InFlight(run[p]).Or(Since(run, p, c)), ALL_BITS);
  }

  /** Nothing claimed is lost: a bit recorded for the wait in any state is in its answer. */
  lemma ClaimedIsAnswered(run: seq<State>, p: nat, c: nat, j: nat, h: Handle)
    requires IsRun(run) && Answers(run, p, j, h) && p <= c <= j && Claims(run[c].rec, h)
    ensures run[c].rec.word.satisfied.Within(LastAnswer(run[j + 1]).satisfied)
  {
    BoundedSincePublication(run, p, c, h);
    RunKeepsInv(run, c);
    ClaimedBound(run[c], h, NO_BITS, ALL_BITS);
    AnswerBetween(run, c, j, h, run[c].rec.word.satisfied, ALL_BITS);
  }

  /** The worker `t` of `h` takes a look at a queue. */
  predicate Looks(s: State, s': State, t: Tid, h: Handle) {
    && t in s.threads && s.threads[t].Work? && (s.threads[t].wk.LookCapture? || s.threads[t].wk.LookInjection?)
    && s.threads[t].wk.h == h
    && !(t in s'.threads && s'.threads[t] == s.threads[t])
  }

  /** What it finds there of what is asked. */
  function Sight(s: State, t: Tid): Mask
    requires t in s.threads && s.threads[t].Work? && (s.threads[t].wk.LookCapture? || s.threads[t].wk.LookInjection?)
  {
    var wk := s.threads[t].wk;
    if wk.LookCapture? then Mask(Readable(s.q) && wk.want.readable, false) else Mask(false, Writable(s.q) && wk.want.writable)
  }

  /** A worker of `h` has found these bits. */
  predicate HasFound(s: State, t: Tid, h: Handle, bits: Mask) {
    && t in s.threads && Taken(s.threads[t]) && Replies(s.threads[t], s.rec.slot).0 == h
    && bits.Within(Found(s.threads[t].wk))
  }

  lemma LookStep(s: State, t: Tid, ok: bool, h: Handle)
    requires t in s.threads && s.threads[t].Work? && (s.threads[t].wk.LookCapture? || s.threads[t].wk.LookInjection?)
    requires s.threads[t].wk.h == h
    ensures HasFound(WorkerStep(s, t, s.threads[t].wk, ok), t, h, Sight(s, t))
  {}

  lemma LookIsKept(s: State, s': State, t: Tid, h: Handle)
    requires Inv(s) && Next(s, s') && Looks(s, s', t, h)
    ensures HasFound(s', t, h, Sight(s, t))
  {
    var a :| Enabled(s, a) && s' == Exec(s, a);
    if a.Step? {
      if a.t == t {
        LookStep(s, t, a.ok, h);
      } else {
        InvKnows(s, a.t);
        ThreadDescends(s, a.t, a.ok);
        Others(s, s', a.t, t);
      }
    } else {
      ActionOutside(s, a, NULL);
    }
  }

  lemma LookIsFound(run: seq<State>, c: nat, t: Tid, h: Handle)
    requires IsRun(run) && c + 1 < |run| && Looks(run[c], run[c + 1], t, h)
    ensures HasFound(run[c + 1], t, h, Sight(run[c], t))
  {
    RunKeepsInv(run, c);
    StepOfRun(run, c);
    LookIsKept(run[c], run[c + 1], t, h);
  }

  lemma FoundIsAnswered(run: seq<State>, p: nat, c: nat, j: nat, h: Handle, t: Tid, bits: Mask)
    requires IsRun(run) && Answers(run, p, j, h) && p <= c <= j && HasFound(run[c], t, h, bits)
    ensures bits.Within(LastAnswer(run[j + 1]).satisfied)
  {
    BoundedSincePublication(run, p, c, h);
    RunKeepsInv(run, c);
    FoundBound(run[c], h, t, NO_BITS, ALL_BITS);
    AnswerBetween(run, c, j, h, Found(run[c].threads[t].wk), ALL_BITS);
  }

  /** Nothing seen is lost: what the worker finds ready is in the answer. */
  lemma SeenIsAnswered(run: seq<State>, p: nat, c: nat, j: nat, h: Handle, t: Tid)
    requires IsRun(run) && Answers(run, p, j, h) && p <= c < j && Looks(run[c], run[c + 1], t, h)
    ensures Sight(run[c], t).Within(LastAnswer(run[j + 1]).satisfied)
  {
    LookIsFound(run, c, t, h);
    FoundIsAnswered(run, p, c + 1, j, h, t, Sight(run[c], t));
  }

  // ----- what callbacks carry was true -----

  /** A step adds to what its thread carries only what is ready. */
  predicate CarriesTrue(s: State, s': State, t: Tid)
    requires t in s.threads
  {
    t in s'.threads ==> Carried(s'.threads[t]).Within(Carried(s.threads[t]).Or(Ready(s'.q)))
  }

  lemma CallbackCarriesTrue(s: State, t: Tid, ok: bool)
    requires t in s.threads && (s.threads[t].Claim? || s.threads[t].Packet?)
    ensures CarriesTrue(s, ThreadStep(s, t, ok), t)
  {}

  lemma RegistrarCarriesTrue(s: State, t: Tid, ok: bool)
    requires t in s.threads && (s.threads[t].Register? || s.threads[t].Publish?)
    ensures CarriesTrue(s, ThreadStep(s, t, ok), t)
  {}

  lemma WorkerCarriesTrue(s: State, t: Tid, ok: bool)
    requires t in s.threads && (s.threads[t].Work? || s.threads[t].Finish? || s.threads[t].Complete?)
    ensures CarriesTrue(s, ThreadStep(s, t, ok), t)
  {}

  lemma CancellerCarriesTrue(s: State, t: Tid, ok: bool)
    requires t in s.threads && (s.threads[t].Tear? || s.threads[t].Cancelling? || s.threads[t].Unmark?)
    ensures CarriesTrue(s, ThreadStep(s, t, ok), t)
  {}

  lemma NextCarriesTrue(s: State, s': State, t: Tid)
    requires Inv(s) && Next(s, s') && t in s'.threads
    ensures Carried(s'.threads[t]).Within((if t in s.threads then Carried(s.threads[t]) else NO_BITS).Or(Ready(s'.q)))
  {
    var a :| Enabled(s, a) && s' == Exec(s, a);
    if !a.Step? {
      ActionOutside(s, a, NULL);
    } else if a.t != t {
      InvKnows(s, a.t);
      ThreadDescends(s, a.t, a.ok);
      Others(s, s', a.t, t);
    } else if s.threads[t].Claim? || s.threads[t].Packet? {
      CallbackCarriesTrue(s, t, a.ok);
    } else if s.threads[t].Register? || s.threads[t].Publish? {
      RegistrarCarriesTrue(s, t, a.ok);
    } else if s.threads[t].Work? || s.threads[t].Finish? || s.threads[t].Complete? {
      WorkerCarriesTrue(s, t, a.ok);
    } else {
      CancellerCarriesTrue(s, t, a.ok);
    }
  }

  lemma CarriedNext(run: seq<State>, i: nat, t: Tid)
    requires IsRun(run) && i + 1 < |run| && t in run[i + 1].threads
    ensures Carried(run[i + 1].threads[t]).Within(
              (if t in run[i].threads then Carried(run[i].threads[t]) else NO_BITS).Or(Ready(run[i + 1].q)))
  {
    RunKeepsInv(run, i);
    StepOfRun(run, i);
    NextCarriesTrue(run[i], run[i + 1], t);
  }

  lemma {:induction false} CarriedWasTrue(run: seq<State>, i: nat, t: Tid)
    requires IsRun(run) && i < |run| && t in run[i].threads
    ensures Carried(run[i].threads[t]).Within(Since(run, 0, i))
    decreases i
  {
    if i > 0 {
      CarriedNext(run, i - 1, t);
      if t in run[i - 1].threads {
        CarriedWasTrue(run, i - 1, t);
      }
    }
  }

  lemma {:induction false} SinceEarlier(run: seq<State>, p: nat, i: nat)
    requires p <= i < |run|
    ensures Since(run, p, i).Within(Since(run, 0, i)) && Since(run, 0, p).Within(Since(run, 0, i))
    decreases i
  {
    if i > p {
      SinceEarlier(run, p, i - 1);
    }
  }

  /** Every bit of every answer held in some state of the run before it. */
  lemma AnswerOnceHeld(run: seq<State>, p: nat, j: nat, h: Handle)
    requires IsRun(run) && Answers(run, p, j, h)
    ensures LastAnswer(run[j + 1]).satisfied.Within(Since(run, 0, j))
  {
    AnswerIsGrounded(run, p, j, h);
    SinceEarlier(run, p, j);
    InFlightWasTrue(run, p);
  }

  lemma InFlightWasTrue(run: seq<State>, p: nat)
    requires IsRun(run) && p < |run|
    ensures InFlight(run[p]).Within(Since(run, 0, p))
  {
    forall t | t in run[p].threads ensures Carried(run[p].threads[t]).Within(Since(run, 0, p)) {
      CarriedWasTrue(run, p, t);
    }
  }

  // ----- a scheduled wait is answered with a reply -----

  /** The device serves what the request asks for. */
  predicate Serving(s: State, h: Handle) {
    && h in s.requests && s.dev.open
    && (s.requests[h].want.readable ==> s.dev.txStarted) && (s.requests[h].want.writable ==> s.dev.rxStarted)
  }

  /** The worker is still looking for `h`, or about to unmark it with a reply. */
  predicate WillReply(s: State, t: Tid, h: Handle) {
    && t in s.threads && Replies(s.threads[t], s.rec.slot).0 == h
    && (Taken(s.threads[t]) || (s.threads[t].Unmark? && s.threads[t].um.CallUnmark? && s.threads[t].um.outcome.Reply?))
  }

  predicate Working(s: State, t: Tid, h: Handle) {
    t in s.threads && s.threads[t].Work? && Serving(s, h)
  }

  /** A worker's step while the device serves its request: on to its next look, and from the
      last one to an unmark with what it found. */
  lemma ServedLook(s: State, t: Tid, ok: bool, h: Handle)
    requires Knows(s, t) && Taken(s.threads[t]) && Replies(s.threads[t], s.rec.slot).0 == h && Serving(s, h)
    ensures WillReply(ThreadStep(s, t, ok), t, h)
  {}

  lemma ServedNext(s: State, s': State, t: Tid, h: Handle)
    requires Inv(s) && Next(s, s') && h != NULL && WillReply(s, t, h) && Working(s, t, h)
    ensures WillReply(s', t, h)
  {
    var a :| Enabled(s, a) && s' == Exec(s, a);
    assert ThreadOk(s, t);
    if a.Step? {
      InvKnows(s, a.t);
      if a.t == t {
        ServedLook(s, t, a.ok, h);
      } else {
        ThreadDescends(s, a.t, a.ok);
        Others(s, s', a.t, t);
        assert ThreadOk(s, a.t);
      }
    } else {
      ActionOutside(s, a, h);
    }
  }

  /** The worker that took the wait, from `c` on, as long as it works. */
  lemma {:induction false} WorksToReply(run: seq<State>, c: nat, u: nat, t: Tid, h: Handle)
    requires IsRun(run) && c <= u < |run| && h != NULL
    requires WillReply(run[c], t, h) && forall k :: c <= k < u ==> Working(run[k], t, h)
    ensures WillReply(run[u], t, h)
    decreases u
  {
    if u > c {
      WorksToReply(run, c, u - 1, t, h);
      RunKeepsInv(run, u - 1);
      StepOfRun(run, u - 1);
      ServedNext(run[u - 1], run[u], t, h);
    }
  }

  /** The thread is bound to complete `h` with this outcome. */
  predicate Bound(pc: Pc, h: Handle, outcome: Outcome) {
    || (pc.Finish? && pc.after == ThenComplete(h, outcome))
    || pc == Complete(h, outcome)
  }

  lemma BoundStep(s: State, t: Tid, ok: bool, h: Handle, outcome: Outcome)
    requires Sees(s, t, h) && h != NULL && Bound(s.threads[t], h, outcome) && h in ThreadStep(s, t, ok).requests
    ensures var s' := ThreadStep(s, t, ok); t in s'.threads && Bound(s'.threads[t], h, outcome)
  {}

  lemma BoundNext(s: State, s': State, t: Tid, h: Handle, outcome: Outcome)
    requires Inv(s) && Next(s, s') && h != NULL && t in s.threads && Bound(s.threads[t], h, outcome) && h in s'.requests
    ensures t in s'.threads && Bound(s'.threads[t], h, outcome)
  {
    var a :| Enabled(s, a) && s' == Exec(s, a);
    if !a.Step? {
      ActionOutside(s, a, h);
    } else if a.t == t {
      InvSees(s, t, h);
      BoundStep(s, t, a.ok, h, outcome);
    } else {
      InvKnows(s, a.t);
      ThreadDescends(s, a.t, a.ok);
      Others(s, s', a.t, t);
    }
  }

  lemma {:induction false} StaysBound(run: seq<State>, v: nat, j: nat, t: Tid, h: Handle, outcome: Outcome)
    requires IsRun(run) && LiveFrom(run, v, j, h) && h != NULL
    requires t in run[v].threads && Bound(run[v].threads[t], h, outcome)
    ensures t in run[j].threads && Bound(run[j].threads[t], h, outcome)
    decreases j
  {
    if j > v {
      StaysBound(run, v, j - 1, t, h, outcome);
      RunKeepsInv(run, j - 1);
      StepOfRun(run, j - 1);
      BoundNext(run[j - 1], run[j], t, h, outcome);
    }
  }

  /** A scheduled wait is answered and not failed. A worker takes it at `c`; the device serves
      it until the worker is through looking, at `u`; and the unmark then succeeds, the request not
      being cancelled. Then its completion at `j` answers exactly if it finds the output buffer. */
  lemma ScheduledWaitIsAnswered(run: seq<State>, c: nat, u: nat, j: nat, t: Tid, h: Handle, ok: bool)
    requires IsRun(run) && c <= u < j && j + 1 < |run| && h != NULL
    requires HasFound(run[c], t, h, NO_BITS) && forall k :: c <= k < u ==> Working(run[k], t, h)
    requires t in run[u].threads && !run[u].threads[t].Work?
    requires h in run[u].requests && run[u].requests[h].status == Marked && run[u + 1] == ThreadStep(run[u], t, true)
    requires LiveFrom(run, u + 1, j, h) && h !in run[j + 1].requests
    requires t in run[j].threads && run[j + 1] == ThreadStep(run[j], t, ok)
    ensures if ok then exists x :: Answered(run[j], run[j + 1], Answer(run[j].requests[h].want, x))
            else run[j + 1].audit.answers == run[j].audit.answers
  {
    WorksToReply(run, c, u, t, h);
    var outcome := run[u].threads[t].um.outcome;
    assert run[u + 1].threads[t] == Retire(h, outcome);
    StaysBound(run, u + 1, j, t, h, outcome);
    if ok {
      assert Answered(run[j], run[j + 1], Answer(run[j].requests[h].want, outcome.satisfied));
    }
  }
}
