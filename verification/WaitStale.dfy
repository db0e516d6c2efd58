/** When an answer can name a bit that has not held since the publication: exactly when a
    callback that changed a queue before the publication has its claim still to come. */
module WaitStale {
  import opened WaitRecord
  import opened WaitModel
  import opened WaitOwnership
  import opened WaitWakeup
  import opened WaitAnswers
  import opened WaitGrounds
  import Runs

  predicate Bit(mask: Mask, read: bool) { if read then mask.readable else mask.writable }

  // ----- continuing a run without ever making the bit true -----

  predicate Dry(s: State, h: Handle, read: bool) { h in s.requests && !Bit(Ready(s.q), read) }

  /** `more` goes on from `run` up to `p` and stays dry. */
  ghost predicate StaysDry(run: seq<State>, p: nat, more: seq<State>, h: Handle, read: bool) {
    && IsRun(more) && p < |run| && p < |more| && more[..p + 1] == run[..p + 1]
    && forall k :: p <= k < |more| ==> Dry(more[k], h, read)
  }

  ghost predicate Continues(run: seq<State>, p: nat, s: State, h: Handle, read: bool) {
    exists more :: StaysDry(run, p, more, h, read) && more[|more| - 1] == s
  }

  lemma Do(run: seq<State>, p: nat, s: State, a: Action, s': State, h: Handle, read: bool)
    requires Continues(run, p, s, h, read) && Enabled(s, a) && s' == Exec(s, a) && Dry(s', h, read)
    ensures Continues(run, p, s', h, read)
  {
    var more :| StaysDry(run, p, more, h, read) && more[|more| - 1] == s;
    assert Next(s, s');
    Runs.Extend(more, START, Next, s');
    assert (more + [s'])[..p + 1] == more[..p + 1];
    assert StaysDry(run, p, more + [s'], h, read);
  }

  lemma Tick(run: seq<State>, p: nat, s: State, t: Tid, s': State, h: Handle, read: bool)
    requires Continues(run, p, s, h, read) && t in s.threads && s' == ThreadStep(s, t, true) && Dry(s', h, read)
    ensures Continues(run, p, s', h, read)
  {
    Do(run, p, s, Step(t, true), s', h, read);
  }

  lemma Begin(run: seq<State>, p: nat, h: Handle, read: bool)
    requires IsRun(run) && p < |run| && Dry(run[p], h, read)
    ensures Continues(run, p, run[p], h, read)
  {
    var more := run[..p + 1];
    assert more[..p + 1] == run[..p + 1];
    forall i | 0 <= i < |more| - 1 ensures Runs.StepAt(more, i, Next) {
      assert Runs.StepAt(run, i, Next);
    }
    assert StaysDry(run, p, more, h, read);
  }

  // ----- the callback comes to its claim -----

  /** Nothing but thread `t` and the queues' generations has changed. */
  predicate Same(s: State, s': State) {
    s'.rec == s.rec && s'.dev == s.dev && s'.requests == s.requests && s'.audit == s.audit && Ready(s'.q) == Ready(s.q)
  }

  /** The wait is published for `h`, the device serves it, and it is not being cancelled. */
  predicate Offered(s: State, h: Handle) {
    && h != NULL && s.rec.slot == h && s.rec.word.phase == Pending && s.rec.word.satisfied.Empty()
    && s.rec.handoff == NoHandoff
    && Serving(s, h) && s.dev.adaptive && s.requests[h].status == Marked && s.requests[h].want == s.rec.interest
  }

  predicate AtClaim(s: State, t: Tid, cond: Mask, back: Resume, at: ClaimAt) {
    t in s.threads && s.threads[t] == Claim(cond, NULL, back, at)
  }

  lemma ClaimTick(run: seq<State>, p: nat, s: State, t: Tid, cond: Mask, back: Resume, at: ClaimAt, h: Handle, read: bool)
      returns (s': State)
    requires Continues(run, p, s, h, read) && AtClaim(s, t, cond, back, at) && Offered(s, h) && Dry(s, h, read)
    requires Bit(cond, read) && Bit(s.rec.interest, read) && !at.EnqueueWork? && !Spent(s.threads[t], s.rec.interest)
    requires at.CasScheduled? ==> at.seen != s.rec.word
    ensures Continues(run, p, s', h, read) && Same(s, s') && Dry(s', h, read)
    ensures AtClaim(s', t, cond, back,
                    match at
                    case Gate => LoadWord
                    case LoadWord => CheckSlot(s.rec.word)
                    case CheckSlot(seen) => CheckInterest(seen)
                    case CheckInterest(seen) => CasScheduled(seen, s.rec.interest.And(cond))
                    case _ => LoadWord)
  {
    s' := ClaimStep(s, t, cond, NULL, back, at, true);
    Tick(run, p, s, t, s', h, read);
  }

  /** A callback that brings the bit comes to the top of its claim. */
  lemma ComesToClaim(run: seq<State>, p: nat, s: State, t: Tid, h: Handle, read: bool) returns (s': State, cond: Mask, back: Resume)
    requires Continues(run, p, s, h, read) && Offered(s, h) && Dry(s, h, read) && t in s.threads && t != Control
    requires Placed(s.rec, t, s.threads[t]) && Bit(Brings(s.threads[t], s.rec.interest), read) && !s.threads[t].Publish?
    requires LoadedBefore(s.threads[t], s.rec.word)
    ensures Continues(run, p, s', h, read) && Same(s, s') && Dry(s', h, read)
    ensures AtClaim(s', t, cond, back, LoadWord) && Bit(cond, read)
  {
    if s.threads[t].Packet? {
      s', cond, back := PacketToClaim(run, p, s, t, s.threads[t].pk, h, read);
    } else {
      cond, back, s' := s.threads[t].cond, s.threads[t].back, s;
      if s.threads[t].claim.CheckSlot? {
        s' := ClaimTick(run, p, s', t, cond, back, s'.threads[t].claim, h, read);
      }
      if s'.threads[t].claim.CheckInterest? {
        s' := ClaimTick(run, p, s', t, cond, back, s'.threads[t].claim, h, read);
      }
      if !s'.threads[t].claim.LoadWord? {
        s' := ClaimTick(run, p, s', t, cond, back, s'.threads[t].claim, h, read);
      }
    }
  }

  lemma PacketToClaim(run: seq<State>, p: nat, s: State, t: Tid, at: PacketAt, h: Handle, read: bool)
      returns (s': State, cond: Mask, back: Resume)
    requires Continues(run, p, s, h, read) && Offered(s, h) && Dry(s, h, read) && t in s.threads && s.threads[t] == Packet(at)
    requires Bit(Carried(Packet(at)), read) && Bit(s.rec.interest, read)
    ensures Continues(run, p, s', h, read) && Same(s, s') && Dry(s', h, read)
    ensures AtClaim(s', t, cond, back, LoadWord) && Bit(cond, read)
  {
    s' := PacketStep(s, t, at, true);
    Tick(run, p, s, t, s', h, read);
    if at.RxBump? {
      var s1 := s';
      s' := PacketStep(s1, t, s1.threads[t].pk, true);
      Tick(run, p, s1, t, s', h, read);
    }
    cond, back := s'.threads[t].cond, s'.threads[t].back;
    s' := ClaimTick(run, p, s', t, cond, back, Gate, h, read);
  }

  // ----- the claim wins -----

  /** A wait is scheduled for `h` with the bit, served and not being cancelled. */
  predicate Told(s: State, h: Handle, read: bool) {
    && h != NULL && s.rec.slot == h && s.rec.word.phase == Scheduled && Bit(s.rec.word.satisfied, read)
    && Serving(s, h) && s.requests[h].status == Marked
  }

  lemma WinTick(s: State, t: Tid, cond: Mask, back: Resume, h: Handle, read: bool)
    requires Offered(s, h) && Dry(s, h, read) && Bit(cond, read) && Bit(s.rec.interest, read)
    requires AtClaim(s, t, cond, back, CasScheduled(s.rec.word, s.rec.interest.And(cond)))
    ensures var s' := ClaimStep(s, t, cond, NULL, back, CasScheduled(s.rec.word, s.rec.interest.And(cond)), true);
            Told(s', h, read) && Dry(s', h, read)
  {}

  lemma ClaimIsWon(run: seq<State>, p: nat, s: State, t: Tid, cond: Mask, back: Resume, h: Handle, read: bool) returns (s': State)
    requires Continues(run, p, s, h, read) && Offered(s, h) && Dry(s, h, read)
    requires AtClaim(s, t, cond, back, LoadWord) && Bit(cond, read) && Bit(s.rec.interest, read)
    ensures Continues(run, p, s', h, read) && Told(s', h, read) && Dry(s', h, read)
  {
    var s1 := ClaimTick(run, p, s, t, cond, back, LoadWord, h, read);
    var s2 := ClaimTick(run, p, s1, t, cond, back, CheckSlot(s.rec.word), h, read);
    var s3 := ClaimTick(run, p, s2, t, cond, back, CheckInterest(s.rec.word), h, read);
    s' := ClaimStep(s3, t, cond, NULL, back, CasScheduled(s.rec.word, s.rec.interest.And(cond)), true);
    WinTick(s3, t, cond, back, h, read);
    Tick(run, p, s3, t, s', h, read);
  }

  // ----- a worker replies -----

  lemma FreshWorker(threads: map<Tid, Pc>) returns (n: nat)
    ensures Worker(n) !in threads
  {
    var names := set t | t in threads.Keys && t.Worker? :: t.n;
    n := Above(names);
    assert forall m :: Worker(m) in threads ==> m in names;
  }

  lemma Above(ns: set<nat>) returns (n: nat)
    ensures forall m :: m in ns ==> m < n
    decreases |ns|
  {
    if ns == {} {
      n := 0;
    } else {
      var m :| m in ns;
      var below := Above(ns - {m});
      n := if below > m then below else m + 1;
      assert forall k :: k in ns ==> k == m || k in ns - {m};
    }
  }

  function WorkRank(at: WorkAt): nat {
    match at
    case LoadScheduled => 9
    case CasUnmarking(_) => 8
    case TakeSlot(_) => 7
    case TakeInterest(_, _) => 6
    case LookCapture(_, _, _) => 5
    case LookInjection(_, _, _, _) => 4
    case TakeInterestAgain(_, _) => 3
    case LookOpen(_, _, _) => 2
    case LookTx(_, _, _) => 1
    case LookRx(_, _, _) => 0
  }

  /** The worker is going to reply the bit. */
  predicate Replying(s: State, t: Tid, h: Handle, read: bool) {
    && h != NULL && WillReply(s, t, h) && Bit(Replies(s.threads[t], s.rec.slot).1, read)
    && Serving(s, h) && s.requests[h].status == Marked
  }

  lemma InvNow(run: seq<State>, p: nat, s: State, h: Handle, read: bool)
    requires Continues(run, p, s, h, read)
    ensures Inv(s)
  {
    var more :| StaysDry(run, p, more, h, read) && more[|more| - 1] == s;
    RunKeepsInv(more, |more| - 1);
  }

  lemma WaitIsTaken(run: seq<State>, p: nat, s: State, h: Handle, read: bool) returns (s': State, t: Tid)
    requires Continues(run, p, s, h, read) && Told(s, h, read) && Dry(s, h, read)
    ensures Continues(run, p, s', h, read) && Dry(s', h, read) && Replying(s', t, h, read)
  {
    var n := FreshWorker(s.threads);
    t := Worker(n);
    var s1 := Goto(s, t, Work(LoadScheduled));
    Do(run, p, s, LoopWorker(n), s1, h, read);
    var s2 := WorkerStep(s1, t, LoadScheduled, true);
    Tick(run, p, s1, t, s2, h, read);
    s' := WorkerStep(s2, t, CasUnmarking(s.rec.word), true);
    Tick(run, p, s2, t, s', h, read);
  }

  /** What a worker knows of its wait. */
  predicate KnowsWait(s: State, t: Tid, h: Handle) {
    && t in s.threads && s.threads[t].Work? && WorkOk(s.rec, s.threads[t].wk) && s.rec.slot == h && h in s.requests
    && s.requests[h].want == s.rec.interest
  }

  lemma WorkTakesTick(s: State, t: Tid, h: Handle, read: bool)
    requires KnowsWait(s, t, h) && Replying(s, t, h, read) && Dry(s, h, read) && WorkRank(s.threads[t].wk) > 5
    ensures var s' := ThreadStep(s, t, true);
            && Dry(s', h, read) && Replying(s', t, h, read)
            && s'.threads[t].Work? && WorkRank(s'.threads[t].wk) < WorkRank(s.threads[t].wk)
  {}

  lemma WorkFindsTick(s: State, t: Tid, h: Handle, read: bool)
    requires KnowsWait(s, t, h) && Replying(s, t, h, read) && Dry(s, h, read) && 5 >= WorkRank(s.threads[t].wk) > 3
    ensures var s' := ThreadStep(s, t, true);
            && Dry(s', h, read) && Replying(s', t, h, read)
            && s'.threads[t].Work? && WorkRank(s'.threads[t].wk) < WorkRank(s.threads[t].wk)
  {}

  lemma WorkAsksTick(s: State, t: Tid, h: Handle, read: bool)
    requires KnowsWait(s, t, h) && Replying(s, t, h, read) && Dry(s, h, read) && WorkRank(s.threads[t].wk) == 3
    ensures var s' := ThreadStep(s, t, true);
            && Dry(s', h, read) && Replying(s', t, h, read)
            && s'.threads[t].Work? && WorkRank(s'.threads[t].wk) < WorkRank(s.threads[t].wk)
  {}

  lemma WorkChecksTick(s: State, t: Tid, h: Handle, read: bool)
    requires KnowsWait(s, t, h) && Replying(s, t, h, read) && Dry(s, h, read) && WorkRank(s.threads[t].wk) <= 2
    ensures var s' := ThreadStep(s, t, true);
            && Dry(s', h, read) && Replying(s', t, h, read)
            && (s'.threads[t].Work? ==> WorkRank(s'.threads[t].wk) < WorkRank(s.threads[t].wk))
  {}

  lemma WorkTick(s: State, t: Tid, h: Handle, read: bool)
    requires Inv(s) && Replying(s, t, h, read) && s.threads[t].Work? && Dry(s, h, read)
    ensures var s' := ThreadStep(s, t, true);
            && Dry(s', h, read) && Replying(s', t, h, read)
            && (s'.threads[t].Work? ==> WorkRank(s'.threads[t].wk) < WorkRank(s.threads[t].wk))
  {
    assert ThreadOk(s, t);
    assert KnowsWait(s, t, h);
    if WorkRank(s.threads[t].wk) > 5 {
      WorkTakesTick(s, t, h, read);
    } else if WorkRank(s.threads[t].wk) > 3 {
      WorkFindsTick(s, t, h, read);
    } else if WorkRank(s.threads[t].wk) == 3 {
      WorkAsksTick(s, t, h, read);
    } else {
      WorkChecksTick(s, t, h, read);
    }
  }

  lemma WorkIsDone(run: seq<State>, p: nat, s: State, t: Tid, h: Handle, read: bool) returns (s': State)
    requires Continues(run, p, s, h, read) && Dry(s, h, read) && Replying(s, t, h, read)
    ensures Continues(run, p, s', h, read) && Dry(s', h, read) && Replying(s', t, h, read) && s'.threads[t].Unmark?
    decreases if t in s.threads && s.threads[t].Work? then 1 + WorkRank(s.threads[t].wk) else 0
  {
    if s.threads[t].Work? {
      InvNow(run, p, s, h, read);
      WorkTick(s, t, h, read);
      var s1 := ThreadStep(s, t, true);
      Tick(run, p, s, t, s1, h, read);
      s' := WorkIsDone(run, p, s1, t, h, read);
    } else {
      s' := s;
    }
  }

  // ----- the request is completed -----

  function FinishRank(at: FinishAt): nat {
    match at
    case ClearInterest => 6
    case ClearCaptureMark => 5
    case ClearInjectionMark => 4
    case ClearHandoff => 3
    case ClearSlot => 2
    case LoadLast => 1
    case StoreFree(_) => 0
  }

  /** The thread completes `h` with this reply. */
  predicate Completing(s: State, t: Tid, h: Handle, bits: Mask) {
    h in s.requests && s.requests[h].status != Marked && t in s.threads && Bound(s.threads[t], h, Reply(bits))
  }

  lemma IsUnmarked(run: seq<State>, p: nat, s: State, t: Tid, h: Handle, read: bool) returns (s': State, bits: Mask)
    requires Continues(run, p, s, h, read) && Dry(s, h, read) && Replying(s, t, h, read) && s.threads[t].Unmark?
    ensures Continues(run, p, s', h, read) && Dry(s', h, read) && Completing(s', t, h, bits) && Bit(bits, read)
  {
    bits := s.threads[t].um.outcome.satisfied;
    s' := ThreadStep(s, t, true);
    Tick(run, p, s, t, s', h, read);
  }

  lemma IsRetired(run: seq<State>, p: nat, s: State, t: Tid, h: Handle, read: bool, bits: Mask) returns (s': State)
    requires Continues(run, p, s, h, read) && Dry(s, h, read) && Completing(s, t, h, bits)
    ensures Continues(run, p, s', h, read) && Dry(s', h, read) && Completing(s', t, h, bits) && s'.threads[t].Complete?
    decreases if t in s.threads && s.threads[t].Finish? then 1 + FinishRank(s.threads[t].fin) else 0
  {
    if s.threads[t].Finish? {
      var s1 := ThreadStep(s, t, true);
      Tick(run, p, s, t, s1, h, read);
      s' := IsRetired(run, p, s1, t, h, read, bits);
    } else {
      s' := s;
    }
  }

  // ----- the theorem -----

  /** Some continuation of the run answers `h` with a bit that has not held since `p`. */
  ghost predicate Misleads(run: seq<State>, p: nat, h: Handle) {
    exists more, j :: MisleadsAt(run, p, h, more, j)
  }

  ghost predicate MisleadsAt(run: seq<State>, p: nat, h: Handle, more: seq<State>, j: nat) {
    && IsRun(more) && p < |run| && p < |more| && more[..p + 1] == run[..p + 1]
    && Answers(more, p, j, h) && !LastAnswer(more[j + 1]).satisfied.Within(Since(more, p, j))
  }

  lemma {:induction false} DrySince(more: seq<State>, p: nat, j: nat, h: Handle, read: bool)
    requires p <= j < |more| && forall k :: p <= k <= j ==> Dry(more[k], h, read)
    ensures !Bit(Since(more, p, j), read)
    decreases j
  {
    if j > p {
      DrySince(more, p, j - 1, h, read);
    }
  }

  lemma LastStepAnswers(s: State, t: Tid, h: Handle, bits: Mask)
    requires Completing(s, t, h, bits) && s.threads[t].Complete?
    ensures var s' := ThreadStep(s, t, true);
            && Next(s, s') && h !in s'.requests && Answered(s, s', Answer(s.requests[h].want, bits))
            && s'.audit.answers != [] && s'.audit.answers != s.audit.answers && LastAnswer(s').satisfied == bits
  {
    assert Exec(s, Step(t, true)) == ThreadStep(s, t, true);
  }

  lemma SamePublication(run: seq<State>, more: seq<State>, p: nat, h: Handle)
    requires Published(run, p, h) && p < |more| && more[..p + 1] == run[..p + 1]
    ensures Published(more, p, h) && more[p] == run[p]
  {
    assert more[p] == more[..p + 1][p] && run[p] == run[..p + 1][p];
    assert more[p - 1] == more[..p + 1][p - 1] && run[p - 1] == run[..p + 1][p - 1];
  }

  lemma IsAnswered(run: seq<State>, p: nat, s: State, t: Tid, h: Handle, read: bool, bits: Mask)
    requires Continues(run, p, s, h, read) && Completing(s, t, h, bits) && s.threads[t].Complete? && Bit(bits, read)
    requires IsRun(run) && Published(run, p, h)
    ensures Misleads(run, p, h)
  {
    var more :| StaysDry(run, p, more, h, read) && more[|more| - 1] == s;
    var s', j := ThreadStep(s, t, true), |more| - 1;
    LastStepAnswers(s, t, h, bits);
    Runs.Extend(more, START, Next, s');
    var longer := more + [s'];
    assert longer[..p + 1] == more[..p + 1];
    SamePublication(run, longer, p, h);
    DrySince(longer, p, j, h, read);
    assert MisleadsAt(run, p, h, longer, j);
  }

  lemma StaleCallback(run: seq<State>, p: nat, h: Handle, t: Tid)
    requires IsRun(run) && Published(run, p, h) && t in run[p].threads && !Brings(run[p].threads[t], run[p].rec.interest).Empty()
    ensures t != Control && Placed(run[p].rec, t, run[p].threads[t]) && !run[p].threads[t].Publish?
    ensures LoadedBefore(run[p].threads[t], run[p].rec.word)
  {
    RunStaysGood(run, p);
    PublicationIsFresh(run, p, h, t);
  }

  lemma PublicationIsFresh(run: seq<State>, p: nat, h: Handle, t: Tid)
    requires IsRun(run) && Published(run, p, h) && t in run[p].threads
    ensures LoadedBefore(run[p].threads[t], run[p].rec.word)
    ensures run[p].threads[t].Publish? ==> run[p].threads[t].pub.SnapCaptureGen?
    ensures Control in run[p].threads && run[p].threads[Control].Publish? && run[p].threads[Control].pub.SnapCaptureGen?
  {
    RunKeepsInv(run, p - 1);
    RunKeepsInv(run, p);
    StepOfRun(run, p - 1);
    PublishedFresh(run[p - 1], run[p], h, t);
    PublishedFresh(run[p - 1], run[p], h, Control);
  }

  /** From a publication with a callback in flight that can bring a bit which does not hold:
      a continuation that never makes it hold and answers it all the same. */
  lemma StaleBitIsAnswered(run: seq<State>, p: nat, h: Handle, t: Tid, read: bool)
    requires IsRun(run) && Published(run, p, h) && Offered(run[p], h) && Dry(run[p], h, read)
    requires t in run[p].threads && Bit(Brings(run[p].threads[t], run[p].rec.interest), read)
    ensures Misleads(run, p, h)
  {
    Begin(run, p, h, read);
    StaleCallback(run, p, h, t);
    var s1, cond, back := ComesToClaim(run, p, run[p], t, h, read);
    var s2 := ClaimIsWon(run, p, s1, t, cond, back, h, read);
    var s3, w := WaitIsTaken(run, p, s2, h, read);
    var s4 := WorkIsDone(run, p, s3, w, h, read);
    var s5, bits := IsUnmarked(run, p, s4, w, h, read);
    var s6 := IsRetired(run, p, s5, w, h, read, bits);
    IsAnswered(run, p, s6, w, h, read, bits);
  }

  lemma {:induction false} SinceBegins(run: seq<State>, p: nat, i: nat)
    requires p <= i < |run|
    ensures Ready(run[p].q).Within(Since(run, p, i))
    decreases i
  {
    if i > p { SinceBegins(run, p, i - 1); }
  }

  lemma NothingStale(run: seq<State>, p: nat, h: Handle, more: seq<State>, j: nat)
    requires IsRun(run) && Published(run, p, h) && InFlight(run[p]).Within(Ready(run[p].q))
    ensures !MisleadsAt(run, p, h, more, j)
  {
    if IsRun(more) && p < |more| && more[..p + 1] == run[..p + 1] && Answers(more, p, j, h) {
      assert more[p] == more[..p + 1][p] == run[p];
      AnswerIsGrounded(more, p, j, h);
      SinceBegins(more, p, j);
    }
  }

  lemma OfferedNow(run: seq<State>, p: nat, h: Handle)
    requires IsRun(run) && Published(run, p, h)
    requires run[p].dev.adaptive && Serving(run[p], h) && run[p].requests[h].status == Marked
    ensures Offered(run[p], h)
  {
    RunKeepsInv(run, p);
    ClaimsIsLive(run[p], h);
  }

  /** Exactly when a published wait can be told what has not held since. Let it be published
      with adaptive mode on, the device serving it and no cancellation under way. Then some
      continuation answers it with a bit that never held from the publication on, if and only
      if a callback in flight at the publication can bring a bit that does not hold there. */
  lemma MisleadsIff(run: seq<State>, p: nat, h: Handle)
    requires IsRun(run) && Published(run, p, h)
    requires run[p].dev.adaptive && Serving(run[p], h) && run[p].requests[h].status == Marked
    ensures Misleads(run, p, h) <==> !InFlight(run[p]).Within(Ready(run[p].q))
  {
    if InFlight(run[p]).Within(Ready(run[p].q)) {
      forall more, j ensures !MisleadsAt(run, p, h, more, j) {
        NothingStale(run, p, h, more, j);
      }
    } else {
      OfferedNow(run, p, h);
      var read := InFlight(run[p]).readable && !Ready(run[p].q).readable;
      assert Bit(InFlight(run[p]), read) && !Bit(Ready(run[p].q), read);
      var t :| t in run[p].threads && Bit(Brings(run[p].threads[t], run[p].rec.interest), read);
      StaleBitIsAnswered(run, p, h, t, read);
    }
  }

  // ----- it happens -----

  ghost predicate Reaches(s: State) {
    exists run :: IsRun(run) && run[|run| - 1] == s
  }

  lemma Reach(s: State, a: Action, s': State)
    requires Reaches(s) && Enabled(s, a) && s' == Exec(s, a)
    ensures Reaches(s')
  {
    var run :| IsRun(run) && run[|run| - 1] == s;
    assert Next(s, s');
    Runs.Extend(run, START, Next, s');
    assert IsRun(run + [s']);
  }

  function RegisterRank(at: RegisterAt): nat {
    match at
    case Validate => 14
    case LoadFree => 13
    case CasFree(_) => 12
    case PutSlot => 11
    case GetCaptureGen => 10
    case GetInjectionGen(_) => 9
    case PutInterest(_, _) => 8
    case PutCaptureMark(_, _) => 7
    case PutInjectionMark(_) => 6
    case PutHandoff => 5
    case CheckOpen => 4
    case CheckAdaptive => 3
    case CheckTx => 2
    case CheckRx => 1
    case MarkCancelable => 0
  }

  /** The control thread registers `h` from `s0` on, and nothing else moves. */
  predicate Undisturbed(s0: State, s: State, h: Handle, want: Mask) {
    && s.q == s0.q && s.dev == s0.dev && s.threads - {Control} == s0.threads - {Control}
    && h != NULL && h in s.requests && s.requests[h].want == want && !want.Empty()
    && s.dev.open && s.dev.adaptive && (want.readable ==> s.dev.txStarted) && (want.writable ==> s.dev.rxStarted)
  }

  predicate Registers(s0: State, s: State, h: Handle, want: Mask) {
    && Undisturbed(s0, s, h, want)
    && Control in s.threads && s.threads[Control].Register? && s.threads[Control].h == h && s.threads[Control].want == want
    && s.requests[h].status == Owned
    && var rank := RegisterRank(s.threads[Control].reg);
       && s.rec.word.phase == (if rank >= 12 then Free else Registering)
       && (rank == 12 ==> s.threads[Control].reg.seen == s.rec.word)
       && s.rec.slot == (if rank >= 11 then NULL else h)
       && (rank < 8 ==> s.rec.interest == want)
  }

  lemma EarlyTick(s0: State, s: State, h: Handle, want: Mask)
    requires Registers(s0, s, h, want) && RegisterRank(s.threads[Control].reg) > 8
    ensures var s' := ThreadStep(s, Control, true);
            Registers(s0, s', h, want) && RegisterRank(s'.threads[Control].reg) < RegisterRank(s.threads[Control].reg)
  {}

  lemma LateTick(s0: State, s: State, h: Handle, want: Mask)
    requires Registers(s0, s, h, want) && 0 < RegisterRank(s.threads[Control].reg) <= 8
    ensures var s' := ThreadStep(s, Control, true);
            Registers(s0, s', h, want) && RegisterRank(s'.threads[Control].reg) < RegisterRank(s.threads[Control].reg)
  {}

  lemma RegisterTick(s0: State, s: State, h: Handle, want: Mask)
    requires Registers(s0, s, h, want) && RegisterRank(s.threads[Control].reg) > 0
    ensures var s' := ThreadStep(s, Control, true);
            Registers(s0, s', h, want) && RegisterRank(s'.threads[Control].reg) < RegisterRank(s.threads[Control].reg)
  {
    if RegisterRank(s.threads[Control].reg) > 8 {
      EarlyTick(s0, s, h, want);
    } else {
      LateTick(s0, s, h, want);
    }
  }

  lemma ComesToMark(s0: State, s: State, h: Handle, want: Mask) returns (s': State)
    requires Reaches(s) && Registers(s0, s, h, want)
    ensures Reaches(s') && Registers(s0, s', h, want) && s'.threads[Control].reg.MarkCancelable?
    decreases if Registers(s0, s, h, want) then RegisterRank(s.threads[Control].reg) else 0
  {
    if s.threads[Control].reg.MarkCancelable? {
      s' := s;
    } else {
      var s1 := ThreadStep(s, Control, true);
      RegisterTick(s0, s, h, want);
      Reach(s, Step(Control, true), s1);
      s' := ComesToMark(s0, s1, h, want);
    }
  }

  /** A registration that nothing disturbs publishes its wait. */
  lemma IsPublished(s0: State, s: State, h: Handle, want: Mask) returns (run: seq<State>)
    requires Reaches(s) && Registers(s0, s, h, want)
    ensures IsRun(run) && Published(run, |run| - 1, h)
    ensures var s' := run[|run| - 1];
            Undisturbed(s0, s', h, want) && s'.rec.interest == want && s'.requests[h].status == Marked
  {
    var s1 := ComesToMark(s0, s, h, want);
    var s2 := ThreadStep(s1, Control, true);
    Reach(s1, Step(Control, true), s2);
    var s3 := ThreadStep(s2, Control, true);
    Reach(s2, Step(Control, true), s3);
    var s4 := ThreadStep(s3, Control, true);
    var before :| IsRun(before) && before[|before| - 1] == s3;
    assert Exec(s3, Step(Control, true)) == s4 && Next(s3, s4);
    Runs.Extend(before, START, Next, s4);
    run := before + [s4];
  }

  const EMPTY_RECORD := Shared(Record(0, NO_BITS, Free), NULL, NoHandoff, NO_BITS, 0, 0)
  const NO_TRAIL := Trail(NO_BITS, 0, false, 0, false)

  /** The capture queue is empty again while the callback that filled it has yet to claim. */
  const LATE_CLAIM := State(
    EMPTY_RECORD, Queues(0, true, 1, 0, true, 0), Device(true, true, true, false, 0, false, {}),
    map[Producer(0) := Packet(CaptureBump(true))], map[], Audit(Undecided, false, false, [], NO_TRAIL))

  lemma ReachesLateClaim()
    ensures Reaches(LATE_CLAIM)
  {
    assert IsRun([START]) && Reaches(START);
    var s1 := START.(dev := START.dev.(open := true));
    Reach(START, OpenLifecycle, s1);
    var s2 := s1.(dev := s1.dev.(adaptive := true));
    Reach(s1, EnableAdaptive, s2);
    var s3 := s2.(dev := s2.dev.(txStarted := true));
    Reach(s2, StartQueue(true), s3);
    var s4 := Exec(s3, StartProducer(0));
    Reach(s3, StartProducer(0), s4);
    Reach(s4, ReadCaptured, LATE_CLAIM);
  }

  /** A wait for readable that is published with the capture queue empty, and that a
      continuation answers as readable although no frame is queued from there on. */
  lemma AnswerCanBeStale()
    ensures exists run, p, h :: IsRun(run) && Published(run, p, h) && Misleads(run, p, h)
  {
    ReachesLateClaim();
    var s := Exec(LATE_CLAIM, DispatchWait(1, READABLE, 0));
    Reach(LATE_CLAIM, DispatchWait(1, READABLE, 0), s);
    var run := IsPublished(LATE_CLAIM, s, 1, READABLE);
    var p := |run| - 1;
    var s' := run[p];
    assert Producer(0) in LATE_CLAIM.threads - {Control};
    assert Producer(0) in s'.threads - {Control} && s'.threads[Producer(0)] == (s'.threads - {Control})[Producer(0)];
    assert Brings(s'.threads[Producer(0)], s'.rec.interest).readable;
    MisleadsIff(run, p, 1);
    assert Misleads(run, p, 1);
  }
}
