/** Receive notification: the framework enables it once per idle period, and whoever finds
    a frame queued, a writer or the enabling callback itself, swaps the armed flag away and
    asks for a poll. One step per atomic operation; callbacks of the receive queue are
    serialised by NetAdapterCx, writers are not. */
module RxNotify {
  import Runs

  datatype WriterPc = Swapping | Took(cycle: nat) | Notifying(cycle: nat)

  datatype RxPc = RxIdle | Checking | Taking | RxTook(cycle: nat) | RxNotifying(cycle: nat) | Polling(holding: bool)

  /** The receive queue's life. Its handle is null outside these two phases. */
  datatype Phase = Detached | Running | Halted

  /** `cycle` numbers the times notification was enabled; `enabled` says the framework
      still waits for the current one. */
  datatype Arm = Arm(armed: bool, enabled: bool, cycle: nat)

  /** `notices` lists the cycles whose notification was issued, in order of issue. */
  datatype State = State(arm: Arm, frames: nat, phase: Phase, rx: RxPc, writers: map<nat, WriterPc>, notices: seq<nat>)

  const START := State(Arm(false, false, 0), 0, Detached, RxIdle, map[], [])

  datatype Action =
    | Attach | Detach | Halt | Disarm
    | Enable | Disable | StepRx | BeginPoll | PutBack | EndPoll
    | Write(writer: nat) | StepWriter(writer: nat)
    | Clear

  predicate Enabled(s: State, a: Action) {
    match a
    case Attach => s.phase == Detached && s.rx == RxIdle
    case Halt => s.phase == Running && s.rx == RxIdle
    case Detach => s.phase == Halted
    case Enable => s.phase == Running && s.rx == RxIdle
    case Disable => s.phase == Running && s.rx == RxIdle
    case BeginPoll => s.phase == Running && s.rx == RxIdle
    case StepRx => s.rx != RxIdle && (s.rx == Polling(false) ==> s.frames > 0)
    case PutBack => s.rx == Polling(true)
    case EndPoll => s.rx.Polling?
    case Write(n) => n !in s.writers
    case StepWriter(n) => n in s.writers
    case Disarm => true
    case Clear => true
  }

  function Disarmed(arm: Arm): Arm {
    Arm(false, false, arm.cycle)
  }

  /** The swap of the armed flag with false. */
  function Swapped(arm: Arm): Arm {
    arm.(armed := false)
  }

  function RxStep(s: State): State
    requires s.rx != RxIdle && (s.rx == Polling(false) ==> s.frames > 0)
  {
    match s.rx
    case Checking => s.(rx := if s.frames > 0 then Taking else RxIdle)
    case Taking => s.(arm := Swapped(s.arm), rx := if s.arm.armed then RxTook(s.arm.cycle) else RxIdle)
    case RxTook(c) => s.(rx := if s.phase == Detached then RxIdle else RxNotifying(c))
    case RxNotifying(c) => s.(rx := RxIdle, notices := s.notices + [c])
    case Polling(holding) => if holding then s.(rx := Polling(false)) else s.(rx := Polling(true), frames := s.frames - 1)
  }

  function WriterStep(s: State, n: nat): State
    requires n in s.writers
  {
    match s.writers[n]
    case Swapping =>
      if s.arm.armed then s.(arm := Swapped(s.arm), writers := s.writers[n := Took(s.arm.cycle)])
      else s.(writers := s.writers - {n})
    case Took(c) =>
      if s.phase == Detached then s.(writers := s.writers - {n}) else s.(writers := s.writers[n := Notifying(c)])
    case Notifying(c) => s.(writers := s.writers - {n}, notices := s.notices + [c])
  }

  function Exec(s: State, a: Action): State
    requires Enabled(s, a)
  {
    match a
    case Attach => s.(phase := Running)
    case Halt => s.(phase := Halted, arm := Disarmed(s.arm))
    case Detach => s.(phase := Detached, arm := Disarmed(s.arm))
    case Disarm => s.(arm := Disarmed(s.arm))
    case Enable => s.(arm := Arm(true, true, s.arm.cycle + 1), rx := Checking)
    case Disable => s.(arm := Disarmed(s.arm))
    case BeginPoll => s.(rx := Polling(false))
    case StepRx => RxStep(s)
    case PutBack => s.(rx := RxIdle, frames := s.frames + 1)
    case EndPoll => s.(rx := RxIdle)
    case Write(n) => s.(frames := s.frames + 1, writers := s.writers[n := Swapping])
    case StepWriter(n) => WriterStep(s, n)
    case Clear => s.(frames := 0)
  }

  ghost predicate Next(s: State, s': State) {
    exists a :: Enabled(s, a) && s' == Exec(s, a)
  }

  ghost predicate IsRun(run: seq<State>) {
    Runs.IsRun(run, START, Next)
  }

  // ----- tokens: each successful swap carries its cycle's one notification -----

  function WriterCycle(pc: WriterPc): int {
    match pc case Swapping => -1 case Took(c) => c case Notifying(c) => c
  }

  function RxCycle(pc: RxPc): int {
    match pc
    case RxTook(c) => c
    case RxNotifying(c) => c
    case _ => -1
  }

  /** The cycle is named once at most: by one thread in flight or one issued notice. */
  predicate Fresh(cycle: nat, arm: Arm) {
    cycle < arm.cycle || (cycle == arm.cycle && !arm.armed)
  }

  ghost predicate WritersOk(writers: map<nat, WriterPc>, arm: Arm, notices: seq<nat>, rx: RxPc) {
    && (forall n :: n in writers && !writers[n].Swapping? ==>
          && Fresh(writers[n].cycle, arm)
          && writers[n].cycle !in notices
          && WriterCycle(writers[n]) != RxCycle(rx))
    && (forall n, m :: n in writers && m in writers && n != m && !writers[n].Swapping? && !writers[m].Swapping? ==>
          writers[n].cycle != writers[m].cycle)
  }

  ghost predicate RxOk(rx: RxPc, arm: Arm, notices: seq<nat>) {
    RxCycle(rx) >= 0 ==> Fresh(RxCycle(rx), arm) && RxCycle(rx) !in notices
  }

  predicate Distinct(notices: seq<nat>) {
    forall i, j :: 0 <= i < j < |notices| ==> notices[i] != notices[j]
  }

  ghost predicate NoticesOk(notices: seq<nat>, arm: Arm) {
    Distinct(notices) && forall c :: c in notices ==> Fresh(c, arm)
  }

  /** Some agent still holds the current cycle's notification. */
  ghost predicate Underway(writers: map<nat, WriterPc>, rx: RxPc, cycle: nat) {
    RxCycle(rx) == cycle || exists n :: n in writers && WriterCycle(writers[n]) == cycle
  }

  /** Some agent has still to look at the armed flag. */
  ghost predicate Looking(writers: map<nat, WriterPc>, rx: RxPc) {
    rx == Checking || rx == Taking || exists n :: n in writers && writers[n] == Swapping
  }

  ghost predicate TokensOk(s: State) {
    && WritersOk(s.writers, s.arm, s.notices, s.rx)
    && RxOk(s.rx, s.arm, s.notices)
    && NoticesOk(s.notices, s.arm)
  }

  ghost predicate CycleOk(s: State) {
    && (s.arm.armed ==> s.arm.enabled)
    && (s.arm.enabled ==> s.phase == Running)
    && (s.arm.enabled ==> s.arm.armed || s.arm.cycle in s.notices || Underway(s.writers, s.rx, s.arm.cycle))
    && (s.arm.armed && (s.frames > 0 || s.rx == Polling(true)) ==> Looking(s.writers, s.rx))
  }

  lemma RxKeepsTokens(s: State)
    requires TokensOk(s) && s.rx != RxIdle && (s.rx == Polling(false) ==> s.frames > 0)
    ensures TokensOk(RxStep(s))
  {}

  lemma WriterKeepsTokens(s: State, n: nat)
    requires TokensOk(s) && n in s.writers
    ensures TokensOk(WriterStep(s, n))
  {}

  lemma StepKeepsTokens(s: State, a: Action)
    requires TokensOk(s) && Enabled(s, a)
    ensures TokensOk(Exec(s, a))
  {
    if a == StepRx { RxKeepsTokens(s); }
    if a.StepWriter? { WriterKeepsTokens(s, a.writer); }
  }

  lemma KeepsUnderway(writers: map<nat, WriterPc>, writers': map<nat, WriterPc>, rx: RxPc, cycle: nat)
    requires Underway(writers, rx, cycle)
    requires forall n :: n in writers && WriterCycle(writers[n]) == cycle ==> n in writers' && WriterCycle(writers'[n]) == cycle
    ensures Underway(writers', rx, cycle)
  {
    if RxCycle(rx) != cycle {
      var n :| n in writers && WriterCycle(writers[n]) == cycle;
      assert n in writers' && WriterCycle(writers'[n]) == cycle;
    }
  }

  lemma RxKeepsCycle(s: State)
    requires CycleOk(s) && s.rx != RxIdle && (s.rx == Polling(false) ==> s.frames > 0)
    ensures CycleOk(RxStep(s))
  {}

  lemma WriterKeepsCycle(s: State, n: nat)
    requires CycleOk(s) && n in s.writers
    ensures CycleOk(WriterStep(s, n))
  {
    var s' := WriterStep(s, n);
    if s.arm.enabled && !s'.arm.armed && s.arm.cycle !in s'.notices {
      if s.arm.armed {
        assert WriterCycle(s'.writers[n]) == s.arm.cycle;
      } else {
        KeepsUnderway(s.writers, s'.writers, s.rx, s.arm.cycle);
      }
    }
    if s'.arm.armed && (s.frames > 0 || s.rx == Polling(true)) && s.rx != Checking && s.rx != Taking {
      var m :| m in s.writers && s.writers[m] == Swapping;
      assert m in s'.writers && s'.writers[m] == Swapping;
    }
  }

  lemma WriteKeepsCycle(s: State, n: nat)
    requires CycleOk(s) && n !in s.writers
    ensures CycleOk(Exec(s, Write(n)))
  {
    var s' := Exec(s, Write(n));
    assert s'.writers[n] == Swapping;
    if s.arm.enabled && !s.arm.armed && s.arm.cycle !in s.notices {
      KeepsUnderway(s.writers, s'.writers, s.rx, s.arm.cycle);
    }
  }

  lemma StepKeepsCycle(s: State, a: Action)
    requires CycleOk(s) && Enabled(s, a)
    ensures CycleOk(Exec(s, a))
  {
    if a == StepRx { RxKeepsCycle(s); }
    else if a.StepWriter? { WriterKeepsCycle(s, a.writer); }
    else if a.Write? { WriteKeepsCycle(s, a.writer); }
  }

  ghost predicate Inv(s: State) {
    TokensOk(s) && CycleOk(s)
  }

  lemma RunKeepsInv(run: seq<State>, i: nat)
    requires IsRun(run) && i < |run|
    ensures Inv(run[i])
  {
    forall s, s' | Inv(s) && Next(s, s') ensures Inv(s') {
      var a :| Enabled(s, a) && s' == Exec(s, a);
      StepKeepsTokens(s, a);
      StepKeepsCycle(s, a);
    }
    Runs.Induction(run, i, START, Next, s => Inv(s));
  }

  // ----- what the driver promises -----

  /** At most one notification is issued for each time notification is enabled. */
  lemma OneNoticePerCycle(run: seq<State>, i: nat, j: nat, k: nat)
    requires IsRun(run) && i < |run| && j < k < |run[i].notices|
    ensures run[i].notices[j] != run[i].notices[k]
    ensures run[i].notices[j] <= run[i].arm.cycle
  {
    RunKeepsInv(run, i);
    assert run[i].notices[j] in run[i].notices;
  }

  /** An armed flag over a queued frame always has someone about to look at it. A poll that
      puts a frame back is no exception: the frame it took had such an agent already. */
  lemma ArmedFrameIsWatched(run: seq<State>, i: nat)
    requires IsRun(run) && i < |run|
    requires run[i].arm.armed && run[i].frames > 0
    ensures Looking(run[i].writers, run[i].rx)
  {
    RunKeepsInv(run, i);
  }

  /** With no agent in flight, frames queued and the framework waiting, the notification of
      the current cycle has been issued: no frame is stranded. */
  lemma NoFrameStranded(run: seq<State>, i: nat)
    requires IsRun(run) && i < |run|
    requires run[i].writers == map[] && run[i].rx == RxIdle
    requires run[i].arm.enabled && run[i].frames > 0
    ensures run[i].arm.cycle in run[i].notices
  {
    RunKeepsInv(run, i);
  }

  // ----- what a notification rests on -----

  predicate SwapToCome(s: State) { exists n :: n in s.writers && s.writers[n] == Swapping }

  /** The state gives a reason to notify its cycle: a frame is queued, or the cycle has just
      been enabled while a writer that queued its frame before has its swap to come. */
  predicate GivesReason(s: State, s': State) {
    s'.frames > 0 || (s'.arm.cycle != s.arm.cycle && SwapToCome(s'))
  }

  /** The cycles some state up to `i` gives a reason for. */
  function Reasons(run: seq<State>, i: nat): set<nat>
    requires i < |run|
    decreases i
  {
    if i == 0 then {}
    else Reasons(run, i - 1) + if GivesReason(run[i - 1], run[i]) then {run[i].arm.cycle} else {}
  }

  ghost predicate Reasoned(s: State, reasons: set<nat>) {
    && (s.rx == Taking || SwapToCome(s) ==> s.arm.cycle in reasons)
    && (RxCycle(s.rx) >= 0 ==> RxCycle(s.rx) as nat in reasons)
    && (forall n :: n in s.writers && !s.writers[n].Swapping? ==> s.writers[n].cycle in reasons)
    && (forall c :: c in s.notices ==> c in reasons)
  }

  lemma RxKeepsReasons(s: State, reasons: set<nat>)
    requires Reasoned(s, reasons) && s.rx != RxIdle && (s.rx == Polling(false) ==> s.frames > 0)
    ensures var s' := RxStep(s);
            Reasoned(s', reasons + if GivesReason(s, s') then {s'.arm.cycle} else {})
  {}

  lemma WriterKeepsReasons(s: State, n: nat, reasons: set<nat>)
    requires Reasoned(s, reasons) && n in s.writers
    ensures var s' := WriterStep(s, n);
            Reasoned(s', reasons + if GivesReason(s, s') then {s'.arm.cycle} else {})
  {}

  lemma StepKeepsReasons(s: State, a: Action, reasons: set<nat>)
    requires Reasoned(s, reasons) && Enabled(s, a)
    ensures var s' := Exec(s, a);
            Reasoned(s', reasons + if GivesReason(s, s') then {s'.arm.cycle} else {})
  {
    if a == StepRx { RxKeepsReasons(s, reasons); }
    else if a.StepWriter? { WriterKeepsReasons(s, a.writer, reasons); }
  }

  lemma {:induction false} RunIsReasoned(run: seq<State>, i: nat)
    requires IsRun(run) && i < |run|
    ensures Reasoned(run[i], Reasons(run, i))
    decreases i
  {
    if i > 0 {
      RunIsReasoned(run, i - 1);
      assert Runs.StepAt(run, i - 1, Next);
      var a :| Enabled(run[i - 1], a) && run[i] == Exec(run[i - 1], a);
      StepKeepsReasons(run[i - 1], a, Reasons(run, i - 1));
    }
  }

  lemma {:induction false} ReasonWasGiven(run: seq<State>, i: nat, c: nat) returns (j: nat)
    requires i < |run| && c in Reasons(run, i)
    ensures 0 < j <= i && run[j].arm.cycle == c && GivesReason(run[j - 1], run[j])
    decreases i
  {
    if c in Reasons(run, i - 1) {
      j := ReasonWasGiven(run, i - 1, c);
    } else {
      j := i;
    }
  }

  /** No notification without a reason in its own cycle. */
  lemma NoticeHasReason(run: seq<State>, i: nat, c: nat) returns (j: nat)
    requires IsRun(run) && i < |run| && c in run[i].notices
    ensures 0 < j <= i && run[j].arm.cycle == c && GivesReason(run[j - 1], run[j])
  {
    RunIsReasoned(run, i);
    j := ReasonWasGiven(run, i, c);
  }

  /** Somebody holds the cycle's notification and is to look for the queue. */
  predicate LooksForQueue(s: State, c: nat) {
    s.rx == RxTook(c) || exists n :: n in s.writers && s.writers[n] == Took(c)
  }

  /** The cycle's notification is issued or on its way past that look. */
  predicate Bound(s: State, c: nat) {
    c in s.notices || s.rx == RxNotifying(c) || exists n :: n in s.writers && s.writers[n] == Notifying(c)
  }

  lemma BoundAtLook(s: State, s': State, c: nat)
    requires Next(s, s') && Bound(s', c) && !Bound(s, c)
    ensures LooksForQueue(s, c) && s.phase != Detached
  {}

  /** No notification without a queue: whoever issues it had found the queue attached. */
  lemma {:induction false} NoticeFoundQueue(run: seq<State>, i: nat, c: nat) returns (j: nat)
    requires IsRun(run) && i < |run| && Bound(run[i], c)
    ensures j < i && LooksForQueue(run[j], c) && run[j].phase != Detached
    decreases i
  {
    if i > 0 {
      assert Runs.StepAt(run, i - 1, Next);
      if Bound(run[i - 1], c) {
        j := NoticeFoundQueue(run, i - 1, c);
      } else {
        BoundAtLook(run[i - 1], run[i], c);
        j := i - 1;
      }
    }
  }

  predicate FirstCycleEmpty(run: seq<State>) {
    forall k :: 0 <= k < |run| && run[k].arm.cycle == 1 ==> run[k].frames == 0
  }

  ghost predicate ReachesEmpty(s: State) {
    exists run :: IsRun(run) && FirstCycleEmpty(run) && run[|run| - 1] == s
  }

  lemma Do(s: State, a: Action, s': State)
    requires ReachesEmpty(s) && Enabled(s, a) && s' == Exec(s, a) && (s'.arm.cycle == 1 ==> s'.frames == 0)
    ensures ReachesEmpty(s')
  {
    var run :| IsRun(run) && FirstCycleEmpty(run) && run[|run| - 1] == s;
    assert Next(s, s');
    Runs.Extend(run, START, Next, s');
    assert IsRun(run + [s']) && FirstCycleEmpty(run + [s']);
  }

  /** A poll has taken the frame of a writer whose swap is still to come. */
  const SLOW_WRITER := State(Arm(false, false, 0), 0, Running, RxIdle, map[0 := Swapping], [])

  lemma ReachesSlowWriter()
    ensures ReachesEmpty(SLOW_WRITER)
  {
    assert IsRun([START]) && FirstCycleEmpty([START]);
    assert ReachesEmpty(START);
    var s1 := START.(phase := Running);
    Do(START, Attach, s1);
    var s2 := s1.(frames := 1, writers := map[0 := Swapping]);
    Do(s1, Write(0), s2);
    var s3 := s2.(rx := Polling(false));
    Do(s2, BeginPoll, s3);
    var s4 := s3.(rx := Polling(true), frames := 0);
    Do(s3, StepRx, s4);
    var s5 := s4.(rx := Polling(false));
    Do(s4, StepRx, s5);
    Do(s5, EndPoll, SLOW_WRITER);
  }

  /** The second kind of reason occurs alone: the slow writer notifies a cycle in which no
      frame was ever queued. */
  lemma NoticeWithoutFrame()
    ensures exists s :: ReachesEmpty(s) && s.notices == [1]
  {
    ReachesSlowWriter();
    var arm := Arm(true, true, 1);
    var s1 := SLOW_WRITER.(arm := arm, rx := Checking);
    Do(SLOW_WRITER, Enable, s1);
    var s2 := SLOW_WRITER.(arm := arm);
    Do(s1, StepRx, s2);
    var s3 := SLOW_WRITER.(arm := Swapped(arm), writers := map[0 := Took(1)]);
    Do(s2, StepWriter(0), s3);
    var s4 := SLOW_WRITER.(arm := Swapped(arm), writers := map[0 := Notifying(1)]);
    Do(s3, StepWriter(0), s4);
    Do(s4, StepWriter(0), SLOW_WRITER.(arm := Swapped(arm), writers := map[], notices := [1]));
  }
}
