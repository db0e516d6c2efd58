/** Which frames the callbacks queue: a frame is queued exactly when its owner is still the
    current one at the owner check, told by the changes of queues and callbacks along a run. */
module OwnerFrames {
  import opened OwnerModel
  import opened OwnerHandover
  import opened Wrappers
  import Runs

  /** The step from `s` to `s'` is one of callback `n`: it moved or ended. */
  predicate Moves(s: State, s': State, n: nat) {
    n in s.callbacks && (n !in s'.callbacks || s'.callbacks[n] != s.callbacks[n])
  }

  /** The queue grew by exactly this frame. */
  predicate Grows(s: State, s': State, d: Dir, g: nat) {
    s'.lanes.Of(d).frames == s.lanes.Of(d).frames + [g]
  }

  predicate QueueKept(s: State, s': State, d: Dir) {
    s'.lanes.Of(d).frames == s.lanes.Of(d).frames
  }

  // ----- one step -----

  lemma OnlyItsOwnStepMoves(s: State, a: Action, n: nat)
    requires Enabled(s, a)
    ensures Moves(s, Exec(s, a), n) ==> a.StepCallback? && a.n == n
    ensures n in Exec(s, a).callbacks && n !in s.callbacks ==> Exec(s, a).callbacks[n].LoadLease?
  {}

  /** Only the enqueue makes a queue grow, by the callback's own generation. */
  lemma GrowthIsAPut(s: State, n: nat, choice: Choice, d: Dir, g: nat)
    requires n in s.callbacks && Grows(s, CallbackStep(s, n, choice), d, g)
    ensures s.callbacks[n] == Put(d, g)
  {
    var before, after := s.lanes.Of(d).frames, CallbackStep(s, n, choice).lanes.Of(d).frames;
    assert |after| == |before| + 1 && after[|before|] == g;
  }

  /** The checks of one give, each by its own step: from taking it up to the enqueue. */
  lemma GiveStep(s: State, n: nat, choice: Choice)
    requires n in s.callbacks && Owns(s.callbacks[n])
    ensures var s', pc := CallbackStep(s, n, choice), s.callbacks[n];
            var d, g := pc.dir, pc.gen;
            && n in s'.callbacks
            && (pc.Busy? && !s'.callbacks[n].Busy? ==>
                  s'.callbacks[n] == (if choice == Leave then CallbackPc.Drop(d) else PutOpen(d, g)) && QueueKept(s, s', d))
            && (pc.PutOpen? ==>
                  && QueueKept(s, s', d)
                  && s'.callbacks[n] == if s.life.lifecycle == Open then PutOwner(d, g) else Busy(d, g))
            && (pc.PutOwner? ==>
                  && QueueKept(s, s', d)
                  && s'.callbacks[n] == if s.life.gen == g then Put(d, g) else Busy(d, g))
            && (pc.Put? ==>
                  && s'.callbacks[n] == Busy(d, g)
                  && if s.lanes.Of(d).open then Grows(s, s', d, g) else QueueKept(s, s', d))
  {}

  lemma DropStep(s: State, n: nat, choice: Choice)
    requires n in s.callbacks && s.callbacks[n].Drop?
    ensures var s' := CallbackStep(s, n, choice); n in s'.callbacks ==> s'.callbacks[n] == s.callbacks[n]
  {}

  /** How a callback came to where it is: it was there, or it moved there by its own step. */
  lemma CameFrom(s: State, a: Action, n: nat)
    requires Enabled(s, a) && n in Exec(s, a).callbacks
    ensures var pc := Exec(s, a).callbacks[n];
            || pc.LoadLease?
            || (n in s.callbacks && s.callbacks[n] == pc)
            || (n in s.callbacks && pc.Busy? && s.callbacks[n] == ReadOwner(pc.dir) && s.life.gen == pc.gen)
            || (n in s.callbacks && Owns(pc) && Owns(s.callbacks[n]) && s.callbacks[n].dir == pc.dir && s.callbacks[n].gen == pc.gen
                && (pc.PutOwner? ==> s.callbacks[n].PutOpen? && s.life.lifecycle == Open)
                && (pc.Put? ==> s.callbacks[n].PutOwner? && s.life.gen == pc.gen))
            || !Owns(pc)
  {}

  // ----- along a run -----

  lemma StepOf(run: seq<State>, k: nat) returns (a: Action)
    requires IsRun(run) && k + 1 < |run|
    ensures Enabled(run[k], a) && run[k + 1] == Exec(run[k], a)
  {
    assert Runs.StepAt(run, k, Next);
    a :| Enabled(run[k], a) && run[k + 1] == Exec(run[k], a);
  }

  /** Whose frame it is: the generation a callback works for was the current one when it
      read the owner. */
  lemma {:induction false} WorksForOwnerRead(run: seq<State>, k: nat, n: nat) returns (r: nat)
    requires IsRun(run) && k < |run| && n in run[k].callbacks && Owns(run[k].callbacks[n])
    ensures r < k && n in run[r].callbacks && run[r].callbacks[n] == ReadOwner(run[k].callbacks[n].dir)
    ensures run[r].life.gen == run[k].callbacks[n].gen
    decreases k
  {
    assert k > 0;
    var a := StepOf(run, k - 1);
    CameFrom(run[k - 1], a, n);
    if n in run[k - 1].callbacks && Owns(run[k - 1].callbacks[n]) {
      r := WorksForOwnerRead(run, k - 1, n);
    } else {
      r := k - 1;
    }
  }

  /** A callback about to enqueue passed its owner check while its generation was current. */
  lemma {:induction false} OwnerWasChecked(run: seq<State>, k: nat, n: nat, d: Dir, g: nat) returns (b: nat)
    requires IsRun(run) && k < |run| && n in run[k].callbacks && run[k].callbacks[n] == Put(d, g)
    ensures b < k && n in run[b].callbacks && run[b].callbacks[n] == PutOwner(d, g) && run[b].life.gen == g
    ensures forall j :: b < j <= k ==> n in run[j].callbacks && run[j].callbacks[n] == Put(d, g)
    decreases k
  {
    assert k > 0;
    var a := StepOf(run, k - 1);
    CameFrom(run[k - 1], a, n);
    if run[k - 1].callbacks[n] == Put(d, g) {
      b := OwnerWasChecked(run, k - 1, n, d, g);
    } else {
      b := k - 1;
    }
  }

  /** ... and before that its OPEN check. */
  lemma {:induction false} OpenWasChecked(run: seq<State>, k: nat, n: nat, d: Dir, g: nat) returns (o: nat)
    requires IsRun(run) && k < |run| && n in run[k].callbacks && run[k].callbacks[n] == PutOwner(d, g)
    ensures o < k && n in run[o].callbacks && run[o].callbacks[n] == PutOpen(d, g) && run[o].life.lifecycle == Open
    ensures forall j :: o < j <= k ==> n in run[j].callbacks && run[j].callbacks[n] == PutOwner(d, g)
    decreases k
  {
    assert k > 0;
    var a := StepOf(run, k - 1);
    CameFrom(run[k - 1], a, n);
    if run[k - 1].callbacks[n] == PutOwner(d, g) {
      o := OpenWasChecked(run, k - 1, n, d, g);
    } else {
      o := k - 1;
    }
  }

  /** No frame of a retired owner is queued: whenever a callback makes a queue grow, the
      frame's generation was the current one at that callback's owner check, and the
      lifecycle was OPEN at the check before it. */
  lemma QueuedFrameWasCurrent(run: seq<State>, k: nat, n: nat, d: Dir, g: nat) returns (o: nat, b: nat)
    requires IsRun(run) && k + 1 < |run| && Moves(run[k], run[k + 1], n) && Grows(run[k], run[k + 1], d, g)
    ensures o < b < k && run[o].life.lifecycle == Open && run[b].life.gen == g
    ensures n in run[o].callbacks && run[o].callbacks[n] == PutOpen(d, g)
    ensures n in run[b].callbacks && run[b].callbacks[n] == PutOwner(d, g)
    ensures forall j :: o < j <= k ==>
              n in run[j].callbacks && (run[j].callbacks[n] == PutOwner(d, g) || run[j].callbacks[n] == Put(d, g))
  {
    var a := StepOf(run, k);
    OnlyItsOwnStepMoves(run[k], a, n);
    GrowthIsAPut(run[k], n, a.choice, d, g);
    b := OwnerWasChecked(run, k, n, d, g);
    o := OpenWasChecked(run, b, n, d, g);
  }

  // ----- what is given is queued -----

  /** Callback `n` takes up a give at `i` and is through with it at `j`. */
  predicate Gives(run: seq<State>, i: nat, j: nat, n: nat, d: Dir, g: nat) {
    && i + 1 < j < |run|
    && n in run[i].callbacks && run[i].callbacks[n] == Busy(d, g)
    && n in run[j].callbacks && run[j].callbacks[n].Busy?
    && forall k :: i < k < j ==> n in run[k].callbacks && !run[k].callbacks[n].Busy?
  }

  /** Where a give can be in between; a callback that leaves instead never comes back. */
  lemma {:induction false} InBetween(run: seq<State>, i: nat, j: nat, n: nat, d: Dir, g: nat, k: nat)
    requires IsRun(run) && Gives(run, i, j, n, d, g) && i < k < j
    ensures run[k].callbacks[n] in {PutOpen(d, g), PutOwner(d, g), Put(d, g), CallbackPc.Drop(d)}
    ensures run[k - 1].callbacks[n] != CallbackPc.Drop(d) && Moves(run[k - 1], run[k], n) ==> QueueKept(run[k - 1], run[k], d)
    decreases k
  {
    var a := StepOf(run, k - 1);
    OnlyItsOwnStepMoves(run[k - 1], a, n);
    if k - 1 > i {
      InBetween(run, i, j, n, d, g, k - 1);
    }
    if a.StepCallback? && a.n == n {
      if Owns(run[k - 1].callbacks[n]) {
        GiveStep(run[k - 1], n, a.choice);
      } else {
        DropStep(run[k - 1], n, a.choice);
      }
    }
  }

  /** A give is decided by three looks. If each finds what it must (OPEN, the callback's own
      generation, an open queue), its last step appends exactly that frame. */
  lemma GivenFrameIsQueued(run: seq<State>, i: nat, j: nat, n: nat, d: Dir, g: nat)
    requires IsRun(run) && Gives(run, i, j, n, d, g)
    requires forall k :: i < k < j ==>
               run[k].life.lifecycle == Open && run[k].life.gen == g && run[k].lanes.Of(d).open
    ensures run[j].callbacks[n] == Busy(d, g) && Grows(run[j - 1], run[j], d, g)
    ensures forall k :: i <= k < j - 1 && Moves(run[k], run[k + 1], n) ==> QueueKept(run[k], run[k + 1], d)
  {
    var a := StepOf(run, j - 1);
    OnlyItsOwnStepMoves(run[j - 1], a, n);
    InBetween(run, i, j, n, d, g, j - 1);
    if run[j - 1].callbacks[n].Drop? {
      DropStep(run[j - 1], n, a.choice);
    } else {
      GiveStep(run[j - 1], n, a.choice);
    }
    forall k | i <= k < j - 1 && Moves(run[k], run[k + 1], n) ensures QueueKept(run[k], run[k + 1], d) {
      InBetween(run, i, j, n, d, g, k + 1);
      if k > i {
        InBetween(run, i, j, n, d, g, k);
        if run[k].callbacks[n].Drop? {
          var b := StepOf(run, k);
          OnlyItsOwnStepMoves(run[k], b, n);
          DropStep(run[k], n, b.choice);
        }
      }
    }
  }

  /** `k` steps of the callback alone, always wanting to give. */
  function Alone(s: State, n: nat, k: nat): State
    decreases k
  {
    if k == 0 || n !in s.callbacks then s else Alone(Exec(s, StepCallback(n, Give)), n, k - 1)
  }

  /** Nothing more is needed: from any state in which the callback's owner is current, the
      lifecycle OPEN and the queue open, four steps of the callback alone queue the frame. */
  lemma UndisturbedGiveQueues(s: State, n: nat, d: Dir, g: nat)
    requires n in s.callbacks && s.callbacks[n] == Busy(d, g)
    requires s.life.lifecycle == Open && s.life.gen == g && s.lanes.Of(d).open
    ensures var s' := Alone(s, n, 4); Grows(s, s', d, g) && n in s'.callbacks && s'.callbacks[n] == Busy(d, g)
  {
    var s1 := Exec(s, StepCallback(n, Give));
    var s2 := Exec(s1, StepCallback(n, Give));
    var s3 := Exec(s2, StepCallback(n, Give));
    var s4 := Exec(s3, StepCallback(n, Give));
    assert Alone(s, n, 4) == Alone(s1, n, 3) == Alone(s2, n, 2);
    assert Alone(s2, n, 2) == Alone(s3, n, 1) == Alone(s4, n, 0);
  }

  // ----- the inline writer -----

  /** A frame the inline writer queues is one of the owner it found at its check, under OPEN. */
  lemma {:induction false} WriterChecked(run: seq<State>, k: nat, g: nat) returns (b: nat)
    requires IsRun(run) && k < |run| && run[k].writer == WriterPut(g)
    ensures b < k && run[b].writer == WriterCheck && run[b].life.lifecycle == Open && run[b].life.gen == g
    decreases k
  {
    assert k > 0;
    var a := StepOf(run, k - 1);
    if run[k - 1].writer == WriterPut(g) {
      b := WriterChecked(run, k - 1, g);
    } else {
      b := k - 1;
    }
  }

  lemma WrittenFrameWasCurrent(run: seq<State>, k: nat, g: nat) returns (b: nat)
    requires IsRun(run) && k + 1 < |run| && run[k].writer != run[k + 1].writer && Grows(run[k], run[k + 1], Rx, g)
    ensures b < k && run[b].writer == WriterCheck && run[b].life.lifecycle == Open && run[b].life.gen == g
  {
    var a := StepOf(run, k);
    var before, after := run[k].lanes.rx.frames, run[k + 1].lanes.rx.frames;
    assert |after| == |before| + 1 && after[|before|] == g;
    b := WriterChecked(run, k, g);
  }

  /** From its check under OPEN with the queue open, two steps of the writer queue the frame. */
  lemma UndisturbedWriteQueues(s: State)
    requires s.writer == WriterCheck && s.life.lifecycle == Open && s.lanes.rx.open
    ensures Grows(s, Exec(Exec(s, StepWriter), StepWriter), Rx, s.life.gen)
  {}
}
