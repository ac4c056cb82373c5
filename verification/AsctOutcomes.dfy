/** How runs of the ASCT integration end: exactly which of them return normally, and what a
    callback has done about the process it found. */
module AsctOutcomes {
  import opened Wrappers
  import opened Asct
  import opened AsctTrackers
  import opened AsctSignals

  // ---- one run and its beginnings ----

  /** The state after the first `k` labels. */
  function StateAt(rebuild: bool, labels: seq<Label>, k: nat): Option<State>
    requires k <= |labels|
  {
    Exec(rebuild, labels[..k])
  }

  /** Every label of the interleaving can happen. */
  ghost predicate Possible(rebuild: bool, labels: seq<Label>, n: nat)
    requires n <= |labels|
  {
    forall k: nat :: k <= n ==> StateAt(rebuild, labels, k).Some?
  }

  lemma OneFurther(rebuild: bool, labels: seq<Label>, k: nat)
    requires k < |labels| && StateAt(rebuild, labels, k + 1).Some?
    ensures StateAt(rebuild, labels, k).Some?
    ensures var s := StateAt(rebuild, labels, k).value;
            Enabled(s, labels[k]) && StateAt(rebuild, labels, k + 1).value == Apply(s, labels[k])
  {
    assert labels[..k + 1][..k] == labels[..k];
  }

  lemma PossibleOn(rebuild: bool, labels: seq<Label>, n: nat)
    requires 0 < n <= |labels| && StateAt(rebuild, labels, n).Some? && Possible(rebuild, labels, n - 1)
    ensures Possible(rebuild, labels, n)
  {
  }

  lemma {:induction false} AllPossible(rebuild: bool, labels: seq<Label>, n: nat)
    requires n <= |labels| && StateAt(rebuild, labels, n).Some?
    ensures Possible(rebuild, labels, n)
  {
    if n > 0 {
      OneFurther(rebuild, labels, n - 1);
      AllPossible(rebuild, labels, n - 1);
      PossibleOn(rebuild, labels, n);
    }
  }

  lemma Reached(rebuild: bool, labels: seq<Label>, k: nat)
    requires k <= |labels| && StateAt(rebuild, labels, k).Some?
    ensures var s := StateAt(rebuild, labels, k).value; Inv(s) && SignalInv(s) && s.program == Program(rebuild)
  {
    ReachableInv(rebuild, labels[..k]);
    ReachableSignals(rebuild, labels[..k]);
  }

  // ---- which runs return normally ----

  /** An answer that nothing is wrong: an awaited call that succeeded, an exit with code zero. */
  predicate Fine(l: Label) {
    l.RunStep? ==> l.outcome.Done? || l.outcome == Exits(0)
  }

  /** An operation that throws unless the last process exited with zero lies ahead of `op`, with
      no other process before it. */
  ghost predicate CheckedAhead(program: seq<Op>, op: nat) {
    exists j: nat :: op <= j < |program| && program[j].ExpectZero? && forall i :: op <= i < j ==> !program[i].Stage?
  }

  ghost predicate StagesChecked(program: seq<Op>) {
    forall op: nat :: op < |program| && program[op].Stage? ==> CheckedAhead(program, op + 1)
  }

  lemma CheckedBy(program: seq<Op>, op: nat, j: nat)
    requires op <= j < |program| && program[j].ExpectZero?
    requires forall i :: op <= i < j ==> !program[i].Stage?
    ensures CheckedAhead(program, op)
  {
  }

  lemma RebuildChecks()
    ensures |Program(true)| == 36 && EndsWithCheck(Program(true))
    ensures Program(true)[15].ExpectZero? && Program(true)[26].ExpectZero? && Program(true)[35].ExpectZero?
  {
  }

  lemma ReuseChecks()
    ensures |Program(false)| == 15 && EndsWithCheck(Program(false)) && Program(false)[14].ExpectZero?
  {
  }

  /** Each process's exit code is looked at before the next one is started. */
  lemma ProgramChecked(rebuild: bool)
    ensures StagesChecked(Program(rebuild)) && EndsWithCheck(Program(rebuild))
  {
    var p := Program(rebuild);
    if rebuild {
      RebuildStages();
      RebuildChecks();
      CheckedBy(p, 12, 15);
      CheckedBy(p, 23, 26);
      CheckedBy(p, 34, 35);
    } else {
      ReuseStages();
      ReuseChecks();
      CheckedBy(p, 13, 14);
    }
  }

  /** The operation `run` turns to next, outside of a process. */
  function NextOp(pc: RunPc): nat
    requires pc.At? || pc.Awaiting? || pc.Normalizing?
  {
    if pc.Normalizing? then pc.op + 1 else pc.op
  }

  /** `run` has thrown, or is about to whatever happens. */
  ghost predicate Doomed(s: State) {
    || s.pc == Settled(false)
    || (s.pc.Normalizing? && s.pc.failed)
    || (s.interrupt.Some? && !PastLastCheck(s))
    || (s.exitCode != 0 && (s.pc.At? || s.pc.Awaiting? || s.pc.Normalizing?) && CheckedAhead(s.program, NextOp(s.pc)))
  }

  lemma CheckStaysAhead(program: seq<Op>, op: nat)
    requires CheckedAhead(program, op) && op < |program| && !program[op].ExpectZero?
    ensures CheckedAhead(program, op + 1) && !program[op].Stage?
  {
    var j: nat :| op <= j < |program| && program[j].ExpectZero? && forall i :: op <= i < j ==> !program[i].Stage?;
    CheckedBy(program, op + 1, j);
  }

  lemma CheckIsInside(program: seq<Op>, op: nat)
    requires CheckedAhead(program, op)
    ensures op < |program|
  {
  }

  lemma OpStaysDoomed(s: State)
    requires PcInv(s) && EndsWithCheck(s.program) && s.pc.At? && s.pc.op <= |s.program| && Doomed(s)
    ensures Doomed(ApplyOp(s))
  {
    var op, n := s.pc.op, |s.program|;
    LastOps(s.program);
    if s.exitCode != 0 && CheckedAhead(s.program, op) {
      CheckIsInside(s.program, op);
      if !s.program[op].ExpectZero? {
        CheckStaysAhead(s.program, op);
      }
    }
  }

  lemma LastOps(program: seq<Op>)
    requires EndsWithCheck(program)
    ensures program[|program| - 2] == Check && program[|program| - 1] == ExpectZero
  {
    assert program[|program| - 2..][0] == program[|program| - 2] && program[|program| - 2..][1] == program[|program| - 1];
  }

  lemma AwaitStaysDoomed(s: State, o: Outcome)
    requires PcInv(s) && EndsWithCheck(s.program) && s.pc.Awaiting? && RunEnabled(s, o) && Doomed(s)
    ensures Doomed(ApplyRun(s, o))
  {
    LastOps(s.program);
    if s.exitCode != 0 && CheckedAhead(s.program, s.pc.op) {
      CheckStaysAhead(s.program, s.pc.op);
    }
  }

  lemma StageStaysDoomed(s: State, o: Outcome)
    requires PcInv(s) && EndsWithCheck(s.program) && InStage(s) && RunEnabled(s, o) && Doomed(s)
    ensures Doomed(ApplyRun(s, o))
  {
    StageIsNotLast(s);
    StageKeepsInterrupt(s, o);
  }

  /** Within a process nothing but the process is decided. */
  lemma StageKeepsInterrupt(s: State, o: Outcome)
    requires InStage(s) && RunEnabled(s, o) && s.pc.op + 2 < |s.program|
    ensures ApplyRun(s, o).interrupt == s.interrupt && !PastLastCheck(ApplyRun(s, o))
  {
    match s.pc
    case Updating(_) =>
    case Launching(_) => LaunchKeepsInterrupt(s);
    case Stopping(_, _, _) => GivenUpShape(s);
    case Waiting(_, _) => AfterWaitShape(s, o);
  }

  lemma LaunchKeepsInterrupt(s: State)
    requires InStage(s) && s.pc.Launching? && s.pc.op + 2 < |s.program|
    ensures AfterLaunch(s).interrupt == s.interrupt && !PastLastCheck(AfterLaunch(s))
    ensures var t := LeaveStage(Emit(s, Ended(StageTracker(s))), true);
            t.interrupt == s.interrupt && !PastLastCheck(t)
  {
  }

  lemma RepairStaysDoomed(s: State, o: Outcome)
    requires PcInv(s) && EndsWithCheck(s.program) && s.pc.Normalizing? && RunEnabled(s, o) && Doomed(s)
    ensures Doomed(ApplyRun(s, o))
  {
    LastOps(s.program);
  }

  lemma RunStaysDoomed(s: State, o: Outcome)
    requires PcInv(s) && EndsWithCheck(s.program) && RunEnabled(s, o) && Doomed(s)
    ensures Doomed(ApplyRun(s, o))
  {
    match s.pc
    case At(_) => OpStaysDoomed(s);
    case Awaiting(_) => AwaitStaysDoomed(s, o);
    case Normalizing(_, _) => RepairStaysDoomed(s, o);
    case _ => StageStaysDoomed(s, o);
  }

  /** A callback leaves what dooms a run alone. */
  lemma CallbackLeavesRun(s: State, l: Label)
    requires Enabled(s, l) && !l.RunStep?
    ensures var t := Apply(s, l);
            && t.pc == s.pc && t.program == s.program && t.exitCode == s.exitCode
            && t.interrupt == if l.Request? then Some(l.kind) else s.interrupt
  {
    match l
    case Request(_) =>
    case StopStep(i, o) => StopLeavesRun(s, i, o);
  }

  lemma StopLeavesRun(s: State, i: nat, o: Outcome)
    requires StopEnabled(s, i, o)
    ensures var t := ApplyStop(s, i, o);
            t.pc == s.pc && t.program == s.program && t.exitCode == s.exitCode && t.interrupt == s.interrupt
  {
  }

  lemma StaysDoomed(s: State, l: Label)
    requires PcInv(s) && EndsWithCheck(s.program) && Enabled(s, l) && Doomed(s)
    ensures Doomed(Apply(s, l))
  {
    if l.RunStep? {
      RunStaysDoomed(s, l.outcome);
    } else {
      CallbackLeavesRun(s, l);
    }
  }

  /** The answer of a process: anything but an uninterrupted exit with zero dooms the run. */
  lemma WaitDooms(s: State, o: Outcome)
    requires PcInv(s) && StagesChecked(s.program) && s.pc.Waiting? && RunEnabled(s, o) && o != Exits(0)
    ensures Doomed(AfterWait(s, o))
  {
    AfterWaitEnds(s, o);
  }

  lemma AfterWaitEnds(s: State, o: Outcome)
    requires s.pc.Waiting? && InStage(s)
    ensures var t, completed := AfterWait(s, o), o.Exits? && s.interrupt.None?;
            && t.program == s.program && t.interrupt == s.interrupt
            && t.exitCode == (if completed then o.code else s.exitCode)
            && t.pc == if StageTracker(s).Benchmarks? then Normalizing(s.pc.op, !completed)
                       else if completed then At(s.pc.op + 1) else Settled(false)
  {
  }

  lemma RoughDooms(s: State, l: Label)
    requires PcInv(s) && StagesChecked(s.program) && Enabled(s, l) && !Fine(l)
    ensures Doomed(Apply(s, l))
  {
    if s.pc.Waiting? {
      WaitDooms(s, l.outcome);
    }
  }

  lemma EarlyRequestDooms(s: State, l: Label)
    requires Enabled(s, l) && l.Request? && !PastLastCheck(s)
    ensures Doomed(Apply(s, l))
  {
    CallbackLeavesRun(s, l);
  }

  /** Label `k` is fine, and no request before the last check. */
  ghost predicate FineAt(rebuild: bool, labels: seq<Label>, k: nat)
    requires k < |labels| && StateAt(rebuild, labels, k).Some?
  {
    Fine(labels[k]) && (labels[k].Request? ==> PastLastCheck(StateAt(rebuild, labels, k).value))
  }

  lemma DoomedHere(rebuild: bool, labels: seq<Label>, k: nat)
    requires k < |labels| && StateAt(rebuild, labels, k + 1).Some?
    requires StateAt(rebuild, labels, k).Some? && !FineAt(rebuild, labels, k)
    ensures Doomed(StateAt(rebuild, labels, k + 1).value)
  {
    OneFurther(rebuild, labels, k);
    Reached(rebuild, labels, k);
    ProgramChecked(rebuild);
    var s := StateAt(rebuild, labels, k).value;
    if !Fine(labels[k]) {
      RoughDooms(s, labels[k]);
    } else {
      EarlyRequestDooms(s, labels[k]);
    }
  }

  lemma DoomedOneFurther(rebuild: bool, labels: seq<Label>, n: nat)
    requires n < |labels| && StateAt(rebuild, labels, n + 1).Some?
    requires StateAt(rebuild, labels, n).Some? && Doomed(StateAt(rebuild, labels, n).value)
    ensures Doomed(StateAt(rebuild, labels, n + 1).value)
  {
    OneFurther(rebuild, labels, n);
    Reached(rebuild, labels, n);
    ProgramChecked(rebuild);
    StaysDoomed(StateAt(rebuild, labels, n).value, labels[n]);
  }

  lemma {:induction false} DoomedFrom(rebuild: bool, labels: seq<Label>, k: nat, n: nat)
    requires k < n <= |labels| && Possible(rebuild, labels, n) && !FineAt(rebuild, labels, k)
    ensures Doomed(StateAt(rebuild, labels, n).value)
  {
    if k < n - 1 {
      DoomedFrom(rebuild, labels, k, n - 1);
      DoomedOneFurther(rebuild, labels, n - 1);
    } else {
      DoomedHere(rebuild, labels, k);
    }
  }

  /** Nothing has gone wrong. */
  predicate Sound(s: State) {
    && s.exitCode == 0 && s.pc != Settled(false) && !s.pc.Stopping? && !(s.pc.Normalizing? && s.pc.failed)
    && (s.interrupt.None? || PastLastCheck(s))
  }

  lemma OpStaysSound(s: State)
    requires EndsWithCheck(s.program) && s.pc.At? && s.pc.op <= |s.program| && Sound(s)
    ensures Sound(ApplyOp(s))
  {
    LastOps(s.program);
  }

  lemma RunStaysSound(s: State, o: Outcome)
    requires PcInv(s) && EndsWithCheck(s.program) && RunEnabled(s, o) && Sound(s) && (o.Done? || o == Exits(0))
    ensures Sound(ApplyRun(s, o))
  {
    match s.pc
    case At(_) => OpStaysSound(s);
    case Waiting(_, _) => AfterWaitEnds(s, o);
    case _ =>
  }

  lemma {:induction false} SoundAsLongAsFine(rebuild: bool, labels: seq<Label>, n: nat)
    requires n <= |labels| && Possible(rebuild, labels, n)
    requires forall k: nat :: k < n ==> FineAt(rebuild, labels, k)
    ensures Sound(StateAt(rebuild, labels, n).value)
  {
    if n > 0 {
      var s, l := StateAt(rebuild, labels, n - 1).value, labels[n - 1];
      SoundAsLongAsFine(rebuild, labels, n - 1);
      OneFurther(rebuild, labels, n - 1);
      Reached(rebuild, labels, n - 1);
      ProgramChecked(rebuild);
      assert FineAt(rebuild, labels, n - 1);
      if l.RunStep? {
        RunStaysSound(s, l.outcome);
      } else {
        CallbackLeavesRun(s, l);
      }
    }
  }

  /** A run that has settled returned normally if and only if every awaited call succeeded, every
      process exited with code zero, and no request came before its last check. */
  lemma NormalReturnExactly(rebuild: bool, labels: seq<Label>)
    requires Exec(rebuild, labels).Some? && Exec(rebuild, labels).value.pc.Settled?
    ensures Possible(rebuild, labels, |labels|)
    ensures Exec(rebuild, labels).value.pc == Settled(true) <==>
              forall k: nat :: k < |labels| ==> FineAt(rebuild, labels, k)
  {
    assert labels[..|labels|] == labels;
    AllPossible(rebuild, labels, |labels|);
    if k: nat :| k < |labels| && !FineAt(rebuild, labels, k) {
      DoomedFrom(rebuild, labels, k, |labels|);
    } else {
      SoundAsLongAsFine(rebuild, labels, |labels|);
    }
  }

  // ---- the return ----

  predicate ReturnTold(s: State) {
    Returned in s.log <==> s.pc == Settled(true)
  }

  lemma OpTellsReturn(s: State)
    requires ReturnTold(s) && s.pc.At? && s.pc.op <= |s.program|
    ensures ReturnTold(ApplyOp(s))
  {
    if s.pc.op == |s.program| {
      assert ApplyOp(s).log[|s.log|] == Returned;
    }
  }

  /** Other steps of `run` add other events, and end in no normal return. */
  lemma StageTellsReturn(s: State, o: Outcome)
    requires ReturnTold(s) && RunEnabled(s, o) && !s.pc.At?
    ensures ReturnTold(ApplyRun(s, o))
  {
    match s.pc
    case Launching(_) => LaunchTellsReturn(s);
    case Stopping(_, h, _) => FinishedTellsReturn(s, h, false);
    case Waiting(_, h) => WaitTellsReturn(s, o);
    case _ =>
  }

  lemma LaunchTellsReturn(s: State)
    requires s.pc.Launching? && InStage(s) && Returned !in s.log
    ensures Returned !in AfterLaunch(s).log && AfterLaunch(s).pc != Settled(true)
  {
  }

  lemma FinishedTellsReturn(s: State, h: Handle, ended: bool)
    requires InStage(s) && Returned !in s.log
    ensures Returned !in FinishTracked(s, h, ended).log
  {
  }

  lemma WaitTellsReturn(s: State, o: Outcome)
    requires s.pc.Waiting? && InStage(s) && Returned !in s.log
    ensures Returned !in AfterWait(s, o).log && AfterWait(s, o).pc != Settled(true)
  {
    AfterWaitEnds(s, o);
  }

  lemma StopTellsReturn(s: State, i: nat, o: Outcome)
    requires StopEnabled(s, i, o)
    ensures Returned in ApplyStop(s, i, o).log <==> Returned in s.log
  {
    AppendedStays(s, ApplyStop(s, i, o), i, o);
  }

  /** A step of a callback adds at most one event, about its own process. */
  lemma AppendedStays(s: State, t: State, i: nat, o: Outcome)
    requires StopEnabled(s, i, o) && t == ApplyStop(s, i, o)
    ensures || t.log == s.log || t.log == s.log + [Killed(s.calls[i].handle, i)]
            || (s.calls[i].tracker.Some? && t.log == s.log + [Ended(s.calls[i].tracker.value)])
  {
  }

  lemma StepTellsReturn(s: State, l: Label)
    requires ReturnTold(s) && Enabled(s, l)
    ensures ReturnTold(Apply(s, l))
  {
    match l
    case Request(_) => CallbackLeavesRun(s, l);
    case StopStep(i, o) => CallbackLeavesRun(s, l); StopTellsReturn(s, i, o);
    case RunStep(o) => if s.pc.At? { OpTellsReturn(s); } else { StageTellsReturn(s, o); }
  }

  /** The return is on the log exactly when `run` has returned normally. */
  lemma {:induction false} ReturnedExactly(rebuild: bool, labels: seq<Label>, n: nat)
    requires n <= |labels| && Possible(rebuild, labels, n)
    ensures ReturnTold(StateAt(rebuild, labels, n).value)
  {
    if n > 0 {
      ReturnedExactly(rebuild, labels, n - 1);
      OneFurther(rebuild, labels, n - 1);
      StepTellsReturn(StateAt(rebuild, labels, n - 1).value, labels[n - 1]);
    }
  }

  // ---- `run` comes to an end ----

  function Phase(pc: RunPc): nat {
    match pc
    case At(_) => 6
    case Awaiting(_) => 5
    case Updating(_) => 5
    case Launching(_) => 4
    case Stopping(_, _, _) => 3
    case Waiting(_, _) => 2
    case Normalizing(_, _) => 1
    case Settled(_) => 0
  }

  /** A bound on the steps of `run` still to come. */
  function Rank(s: State): nat {
    if s.pc.Settled? || s.pc.op > |s.program| then 0 else 6 * (|s.program| - s.pc.op) + Phase(s.pc)
  }

  lemma StageLowersRank(s: State, o: Outcome)
    requires InStage(s) && RunEnabled(s, o)
    ensures Rank(ApplyRun(s, o)) < Rank(s)
  {
    match s.pc
    case Waiting(_, _) => AfterWaitEnds(s, o);
    case Launching(_) => LaunchPlace(s);
    case _ =>
  }

  lemma LaunchPlace(s: State)
    requires s.pc.Launching? && InStage(s)
    ensures var t := AfterLaunch(s); t.program == s.program && (t.pc.Stopping? || t.pc.Waiting?) && t.pc.op == s.pc.op
  {
  }

  lemma RunLowersRank(s: State, o: Outcome)
    requires PcInv(s) && RunEnabled(s, o)
    ensures Rank(ApplyRun(s, o)) < Rank(s)
  {
    match s.pc
    case At(_) =>
    case Awaiting(_) =>
    case Normalizing(_, _) =>
    case _ => StageLowersRank(s, o);
  }

  /** The steps of `run` among the first `n` labels. */
  function RunSteps(labels: seq<Label>, n: nat): nat
    requires n <= |labels|
  {
    if n == 0 then 0 else RunSteps(labels, n - 1) + if labels[n - 1].RunStep? then 1 else 0
  }

  lemma {:induction false} RunSpendsRank(rebuild: bool, labels: seq<Label>, n: nat)
    requires n <= |labels| && Possible(rebuild, labels, n)
    ensures RunSteps(labels, n) + Rank(StateAt(rebuild, labels, n).value) <= Rank(Init(rebuild))
  {
    if n > 0 {
      var s, l := StateAt(rebuild, labels, n - 1).value, labels[n - 1];
      RunSpendsRank(rebuild, labels, n - 1);
      OneFurther(rebuild, labels, n - 1);
      Reached(rebuild, labels, n - 1);
      if l.RunStep? {
        RunLowersRank(s, l.outcome);
      } else {
        CallbackLeavesRun(s, l);
      }
    }
  }

  /** Until it has settled, `run` can go on, or the callback it waits for can. */
  lemma SomethingMoves(s: State)
    requires PcInv(s) && !s.pc.Settled?
    ensures exists l: Label :: Enabled(s, l) && !l.Request?
  {
    if s.pc.Stopping? && !s.calls[s.pc.call].pc.StopDone? {
      assert Enabled(s, StopStep(s.pc.call, Asct.Done));
    } else if s.pc.Waiting? {
      assert Enabled(s, RunStep(Exits(0)));
    } else {
      assert Enabled(s, RunStep(Asct.Done));
    }
  }

  /** However the callbacks fall, `run` takes a bounded number of steps, and where nothing can
      move without a new request it has settled. */
  lemma RunSettles(rebuild: bool, labels: seq<Label>)
    requires Exec(rebuild, labels).Some?
    ensures RunSteps(labels, |labels|) <= 6 * |Program(rebuild)| + 6
    ensures (forall l: Label :: Enabled(Exec(rebuild, labels).value, l) ==> l.Request?)
              ==> Exec(rebuild, labels).value.pc.Settled?
  {
    assert labels[..|labels|] == labels;
    AllPossible(rebuild, labels, |labels|);
    RunSpendsRank(rebuild, labels, |labels|);
    Reached(rebuild, labels, |labels|);
    if !Exec(rebuild, labels).value.pc.Settled? {
      SomethingMoves(Exec(rebuild, labels).value);
    }
  }

  // ---- a request reaches the process ----

  /** The process `run` waits for is the active one, or a callback is done with it. */
  ghost predicate ActiveOrStopped(s: State) {
    Holding(s) ==> s.activeHandle == Some(s.pc.handle) || DoneWith(s, s.pc.handle)
  }

  ghost predicate DoneWith(s: State, h: Handle) {
    exists i :: 0 <= i < |s.calls| && s.calls[i].StopCall? && s.calls[i].handle == h && s.calls[i].pc.StopDone?
  }

  /** A recorded request has been passed on to it. */
  ghost predicate PassedOn(s: State) {
    Holding(s) && s.interrupt.Some? ==> exists call: nat :: InterruptedIn(s.log, s.pc.handle, call)
  }

  ghost predicate ReachInv(s: State) {
    ActiveOrStopped(s) && PassedOn(s)
  }

  lemma MoreEvents(log: seq<Event>, e: Event, h: Handle, call: nat)
    ensures InterruptedIn(log, h, call) ==> InterruptedIn(log + [e], h, call)
    ensures InterruptedIn(log + [Interrupted(h, call)], h, call)
  {
    assert (log + [Interrupted(h, call)])[|log|] == Interrupted(h, call);
  }

  lemma RequestReachesActive(s: State, kind: Interrupt)
    requires Holding(s) && s.activeHandle == Some(s.pc.handle)
    ensures ReachInv(Apply(s, Request(kind)))
  {
    var t, log := Apply(s, Request(kind)), s.log + [Requested(kind)];
    MoreEvents(log, Requested(kind), s.pc.handle, |s.calls|);
    assert t.log == log + [Interrupted(s.pc.handle, |s.calls|)];
    assert InterruptedIn(t.log, s.pc.handle, |s.calls|);
  }

  lemma RequestAfterStop(s: State, kind: Interrupt, i: nat)
    requires SignalInv(s) && Holding(s)
    requires i < |s.calls| && s.calls[i].StopCall? && s.calls[i].handle == s.pc.handle && s.calls[i].pc.StopDone?
    ensures ReachInv(Apply(s, Request(kind)))
  {
    var t := Apply(s, Request(kind));
    RequestKeepsEvents(s, kind, s.pc.handle, i);
    assert t.calls[i] == s.calls[i];
    assert InterruptedIn(t.log, s.pc.handle, i);
  }

  lemma RequestReaches(s: State, kind: Interrupt)
    requires PcInv(s) && SignalInv(s) && ReachInv(s)
    ensures ReachInv(Apply(s, Request(kind)))
  {
    if Holding(s) {
      if s.activeHandle == Some(s.pc.handle) {
        RequestReachesActive(s, kind);
      } else {
        var i :| 0 <= i < |s.calls| && s.calls[i].StopCall? && s.calls[i].handle == s.pc.handle && s.calls[i].pc.StopDone?;
        RequestAfterStop(s, kind, i);
      }
    }
  }

  lemma RequestKeepsEvents(s: State, kind: Interrupt, h: Handle, call: nat)
    requires InterruptedIn(s.log, h, call)
    ensures InterruptedIn(Apply(s, Request(kind)).log, h, call)
  {
  }

  lemma StopReaches(s: State, i: nat, o: Outcome)
    requires PcInv(s) && ReachInv(s) && StopEnabled(s, i, o)
    ensures ReachInv(ApplyStop(s, i, o))
  {
    var t := ApplyStop(s, i, o);
    StopLeavesRun(s, i, o);
    AppendedStays(s, t, i, o);
    StopKeepsActive(s, i, o);
    if Holding(s) {
      if DoneWith(s, s.pc.handle) {
        var j :| 0 <= j < |s.calls| && s.calls[j].StopCall? && s.calls[j].handle == s.pc.handle && s.calls[j].pc.StopDone?;
        assert t.calls[j] == s.calls[j];
      }
      if s.interrupt.Some? {
        var call: nat :| InterruptedIn(s.log, s.pc.handle, call);
        assert InterruptedIn(t.log, s.pc.handle, call);
      }
    }
  }

  /** A callback gives up the active process only when it is done with it. */
  lemma StopKeepsActive(s: State, i: nat, o: Outcome)
    requires StopEnabled(s, i, o)
    ensures var t := ApplyStop(s, i, o);
            && |t.calls| == |s.calls|
            && (forall j :: 0 <= j < |s.calls| && j != i ==> t.calls[j] == s.calls[j])
            && t.calls[i].StopCall? && t.calls[i].handle == s.calls[i].handle
            && (t.activeHandle == s.activeHandle
                || (s.activeHandle == Some(s.calls[i].handle) && t.calls[i].pc.StopDone?))
  {
  }

  lemma LaunchReaches(s: State)
    requires s.pc.Launching? && InStage(s)
    ensures ReachInv(AfterLaunch(s))
  {
    var h := |s.launched|;
    MoreEvents(s.log + [Launched(h)], Launched(h), h, |s.calls|);
    LaunchActive(s);
  }

  lemma LaunchActive(s: State)
    requires s.pc.Launching? && InStage(s)
    ensures var t, h := AfterLaunch(s), |s.launched|;
            && Holding(t) && t.pc.handle == h && t.activeHandle == Some(h) && t.interrupt == s.interrupt
            && (s.interrupt.Some? ==> t.log == s.log + [Launched(h)] + [Interrupted(h, |s.calls|)])
  {
  }

  lemma RunReaches(s: State, o: Outcome)
    requires PcInv(s) && ReachInv(s) && RunEnabled(s, o)
    ensures ReachInv(ApplyRun(s, o))
  {
    match s.pc
    case Launching(_) => LaunchReaches(s);
    case Stopping(_, _, _) => StoppedReaches(s);
    case Waiting(_, _) => AfterWaitEnds(s, o);
    case _ =>
  }

  lemma StoppedReaches(s: State)
    requires s.pc.Stopping? && InStage(s) && ReachInv(s)
    ensures ReachInv(BeginWait(s, s.pc.op, s.pc.handle))
    ensures !Holding(LeaveStage(FinishTracked(s, s.pc.handle, false), true))
  {
    var t := BeginWait(s, s.pc.op, s.pc.handle);
    if s.interrupt.Some? {
      var call: nat :| InterruptedIn(s.log, s.pc.handle, call);
      MoreEvents(s.log, Waited(s.pc.handle), s.pc.handle, call);
    }
  }

  lemma StepReaches(s: State, l: Label)
    requires PcInv(s) && SignalInv(s) && ReachInv(s) && Enabled(s, l)
    ensures ReachInv(Apply(s, l))
  {
    match l
    case Request(kind) => RequestReaches(s, kind);
    case RunStep(o) => RunReaches(s, o);
    case StopStep(i, o) => StopReaches(s, i, o);
  }

  /** At every moment: if a request has come, before the launch or since, the process that `run`
      waits for has been interrupted. */
  lemma {:induction false} RequestsReachProcess(rebuild: bool, labels: seq<Label>, n: nat)
    requires n <= |labels| && Possible(rebuild, labels, n)
    ensures ReachInv(StateAt(rebuild, labels, n).value)
  {
    if n > 0 {
      RequestsReachProcess(rebuild, labels, n - 1);
      OneFurther(rebuild, labels, n - 1);
      Reached(rebuild, labels, n - 1);
      StepReaches(StateAt(rebuild, labels, n - 1).value, labels[n - 1]);
    }
  }

  // ---- escalation ----

  /** Label `k` answers callback `i` that the interrupt failed, or that the process outlived its
      grace period or could not be waited for. */
  ghost predicate Refused(rebuild: bool, labels: seq<Label>, k: nat, i: nat) {
    && k < |labels| && StateAt(rebuild, labels, k).Some? && RefusedIn(StateAt(rebuild, labels, k).value, labels[k], i)
  }

  predicate RefusedIn(s: State, l: Label, i: nat) {
    && l.StopStep? && l.call == i && i < |s.calls| && s.calls[i].StopCall?
    && ((s.calls[i].pc.Interrupting? && l.outcome.Fails?)
        || (s.calls[i].pc.InterruptWait? && (l.outcome.Fails? || l.outcome.TimedOut?)))
  }

  /** Label `k` answers it that the process has exited. */
  ghost predicate Yielded(rebuild: bool, labels: seq<Label>, k: nat, i: nat) {
    && k < |labels| && StateAt(rebuild, labels, k).Some? && YieldedIn(StateAt(rebuild, labels, k).value, labels[k], i)
  }

  predicate YieldedIn(s: State, l: Label, i: nat) {
    && l.StopStep? && l.call == i && i < |s.calls| && s.calls[i].StopCall?
    && s.calls[i].pc.InterruptWait? && (l.outcome.Done? || l.outcome.Exits?)
  }

  predicate KilledBy(s: State, i: nat)
    requires i < |s.calls| && s.calls[i].StopCall?
  {
    Killed(s.calls[i].handle, i) in s.log
  }

  /** What one step does about callback `i`. */
  predicate Escalates(s: State, l: Label, t: State, i: nat)
    requires i < |s.calls| && s.calls[i].StopCall?
  {
    && i < |t.calls| && t.calls[i].StopCall? && t.calls[i].handle == s.calls[i].handle
    && (KilledBy(t, i) <==> KilledBy(s, i) || RefusedIn(s, l, i))
    && (t.calls[i].pc.Killing? || t.calls[i].pc.KillWait? ==> KilledBy(t, i))
    && (t.calls[i].pc.StopDone? ==> KilledBy(t, i) || YieldedIn(s, l, i) || s.calls[i].pc.StopDone?)
  }

  lemma OwnStepEscalates(s: State, i: nat, o: Outcome)
    requires StopEnabled(s, i, o) && (s.calls[i].pc.Killing? || s.calls[i].pc.KillWait? ==> KilledBy(s, i))
    ensures Escalates(s, StopStep(i, o), ApplyStop(s, i, o), i)
  {
    var t, e := ApplyStop(s, i, o), Killed(s.calls[i].handle, i);
    AppendedStays(s, t, i, o);
    StopKeepsActive(s, i, o);
    OwnStepKills(s, i, o);
    assert t.log == s.log + [e] ==> t.log[|s.log|] == e;
  }

  lemma OwnStepKills(s: State, i: nat, o: Outcome)
    requires StopEnabled(s, i, o)
    ensures var t, e := ApplyStop(s, i, o), Killed(s.calls[i].handle, i);
            && (RefusedIn(s, StopStep(i, o), i) ==> t.log == s.log + [e])
            && (t.log == s.log + [e] ==> RefusedIn(s, StopStep(i, o), i) || s.calls[i].pc.Killing?)
            && (t.calls[i].pc.Killing? ==> t.log == s.log + [e])
            && (t.calls[i].pc.KillWait? ==> s.calls[i].pc.Killing?)
            && (t.calls[i].pc.StopDone? ==>
                  s.calls[i].pc.Killing? || s.calls[i].pc.KillWait? || YieldedIn(s, StopStep(i, o), i))
  {
    var t, e := ApplyStop(s, i, o), Killed(s.calls[i].handle, i);
    if t.log == s.log + [e] {
      assert t.log[|s.log|] == e;
    }
  }

  lemma OtherStepEscalates(s: State, j: nat, o: Outcome, i: nat)
    requires StopEnabled(s, j, o) && i != j && i < |s.calls| && s.calls[i].StopCall?
    requires s.calls[i].pc.Killing? || s.calls[i].pc.KillWait? ==> KilledBy(s, i)
    ensures Escalates(s, StopStep(j, o), ApplyStop(s, j, o), i)
  {
    AppendedStays(s, ApplyStop(s, j, o), j, o);
    StopKeepsActive(s, j, o);
  }

  lemma RequestEscalates(s: State, kind: Interrupt, i: nat)
    requires i < |s.calls| && s.calls[i].StopCall?
    requires s.calls[i].pc.Killing? || s.calls[i].pc.KillWait? ==> KilledBy(s, i)
    ensures Escalates(s, Request(kind), Apply(s, Request(kind)), i)
  {
  }

  /** `run` adds no kill and leaves the callbacks of others where they are. */
  lemma RunLeavesCalls(s: State, o: Outcome, i: nat)
    requires RunEnabled(s, o) && i < |s.calls|
    ensures i < |ApplyRun(s, o).calls| && ApplyRun(s, o).calls[i] == s.calls[i]
    ensures forall h: nat, j: nat :: Killed(h, j) in ApplyRun(s, o).log <==> Killed(h, j) in s.log
  {
    match s.pc
    case At(_) =>
    case Launching(_) => LaunchLeavesCalls(s, i);
    case Stopping(_, h, _) => FinishedLeavesCalls(s, h, false);
    case Waiting(_, h) => WaitLeavesCalls(s, o);
    case _ =>
  }

  lemma LaunchLeavesCalls(s: State, i: nat)
    requires s.pc.Launching? && InStage(s) && i < |s.calls|
    ensures i < |AfterLaunch(s).calls| && AfterLaunch(s).calls[i] == s.calls[i]
    ensures forall h: nat, j: nat :: Killed(h, j) in AfterLaunch(s).log <==> Killed(h, j) in s.log
  {
  }

  lemma FinishedLeavesCalls(s: State, h: Handle, ended: bool)
    requires InStage(s)
    ensures FinishTracked(s, h, ended).calls == s.calls
    ensures forall h': nat, j: nat :: Killed(h', j) in FinishTracked(s, h, ended).log <==> Killed(h', j) in s.log
  {
  }

  lemma WaitLeavesCalls(s: State, o: Outcome)
    requires s.pc.Waiting? && InStage(s)
    ensures AfterWait(s, o).calls == s.calls
    ensures forall h: nat, j: nat :: Killed(h, j) in AfterWait(s, o).log <==> Killed(h, j) in s.log
  {
  }

  lemma StepEscalates(s: State, l: Label, i: nat)
    requires Enabled(s, l) && i < |s.calls| && s.calls[i].StopCall?
    requires s.calls[i].pc.Killing? || s.calls[i].pc.KillWait? ==> KilledBy(s, i)
    ensures Escalates(s, l, Apply(s, l), i)
  {
    match l
    case Request(kind) => RequestEscalates(s, kind, i);
    case RunStep(o) => RunLeavesCalls(s, o, i);
    case StopStep(j, o) => if j == i { OwnStepEscalates(s, i, o); } else { OtherStepEscalates(s, j, o, i); }
  }

  /** What callback `i` has done by label `n`. */
  ghost predicate Escalated(rebuild: bool, labels: seq<Label>, n: nat, i: nat)
    requires n <= |labels| && StateAt(rebuild, labels, n).Some?
  {
    var s := StateAt(rebuild, labels, n).value;
    i < |s.calls| && s.calls[i].StopCall? ==>
      && (KilledBy(s, i) <==> exists k: nat :: k < n && Refused(rebuild, labels, k, i))
      && (s.calls[i].pc.Killing? || s.calls[i].pc.KillWait? ==> KilledBy(s, i))
      && (s.calls[i].pc.StopDone? ==> KilledBy(s, i) || exists k: nat :: k < n && Yielded(rebuild, labels, k, i))
  }

  /** A new callback has not killed anything, and nobody answered it before. */
  ghost predicate NoKillAhead(s: State) {
    forall h: nat, i: nat :: Killed(h, i) in s.log ==> i < |s.calls|
  }

  lemma NewCallEscalates(rebuild: bool, labels: seq<Label>, n: nat, i: nat)
    requires n < |labels| && Possible(rebuild, labels, n + 1)
    requires NoKillAhead(StateAt(rebuild, labels, n).value) && CallsGrow(rebuild, labels, n + 1)
    requires i >= |StateAt(rebuild, labels, n).value.calls|
    ensures Escalated(rebuild, labels, n + 1, i)
  {
    var s, l := StateAt(rebuild, labels, n).value, labels[n];
    OneFurther(rebuild, labels, n);
    NewCallIsFresh(s, l, i);
    forall k: nat | k < n + 1 ensures !Refused(rebuild, labels, k, i) {
      assert |StateAt(rebuild, labels, k).value.calls| <= |s.calls|;
    }
  }

  lemma NewCallIsFresh(s: State, l: Label, i: nat)
    requires Enabled(s, l) && NoKillAhead(s) && i >= |s.calls|
    ensures var t := Apply(s, l);
            && (i < |t.calls| && t.calls[i].StopCall? ==> t.calls[i].pc.Interrupting?)
            && (forall h: nat :: Killed(h, i) !in t.log)
  {
    match l
    case Request(_) =>
    case StopStep(j, o) => AppendedStays(s, Apply(s, l), j, o); StopKeepsActive(s, j, o);
    case RunStep(o) => NewRunCallIsFresh(s, o, i);
  }

  lemma NewRunCallIsFresh(s: State, o: Outcome, i: nat)
    requires RunEnabled(s, o) && NoKillAhead(s) && i >= |s.calls|
    ensures var t := ApplyRun(s, o);
            && (i < |t.calls| && t.calls[i].StopCall? ==> t.calls[i].pc.Interrupting?)
            && (forall h: nat :: Killed(h, i) !in t.log)
  {
    match s.pc
    case Waiting(_, _) => WaitLeavesCalls(s, o);
    case Stopping(_, h, _) => FinishedLeavesCalls(s, h, false);
    case _ =>
  }

  /** Callbacks are only added. */
  ghost predicate CallsGrow(rebuild: bool, labels: seq<Label>, n: nat)
    requires n <= |labels| && Possible(rebuild, labels, n)
  {
    forall j: nat, k: nat :: j <= k <= n ==>
      |StateAt(rebuild, labels, j).value.calls| <= |StateAt(rebuild, labels, k).value.calls|
  }

  lemma StepGrowsCalls(s: State, l: Label)
    requires Enabled(s, l) && NoKillAhead(s)
    ensures |s.calls| <= |Apply(s, l).calls| && NoKillAhead(Apply(s, l))
  {
    match l
    case Request(_) =>
    case StopStep(i, o) => AppendedStays(s, Apply(s, l), i, o); StopKeepsActive(s, i, o);
    case RunStep(o) => RunGrowsCalls(s, o);
  }

  lemma RunGrowsCalls(s: State, o: Outcome)
    requires RunEnabled(s, o) && NoKillAhead(s)
    ensures |s.calls| <= |ApplyRun(s, o).calls| && NoKillAhead(ApplyRun(s, o))
  {
    match s.pc
    case Waiting(_, _) => WaitLeavesCalls(s, o);
    case Stopping(_, h, _) => FinishedLeavesCalls(s, h, false);
    case _ =>
  }

  lemma GrowsOn(rebuild: bool, labels: seq<Label>, n: nat)
    requires n < |labels| && Possible(rebuild, labels, n + 1) && CallsGrow(rebuild, labels, n)
    requires |StateAt(rebuild, labels, n).value.calls| <= |StateAt(rebuild, labels, n + 1).value.calls|
    ensures CallsGrow(rebuild, labels, n + 1)
  {
    forall j: nat, k: nat | j <= k <= n + 1
      ensures |StateAt(rebuild, labels, j).value.calls| <= |StateAt(rebuild, labels, k).value.calls|
    {
      if j <= n && k == n + 1 {
        assert |StateAt(rebuild, labels, j).value.calls| <= |StateAt(rebuild, labels, n).value.calls|;
      }
    }
  }

  lemma {:induction false} RunGrows(rebuild: bool, labels: seq<Label>, n: nat)
    requires n <= |labels| && Possible(rebuild, labels, n)
    ensures CallsGrow(rebuild, labels, n) && NoKillAhead(StateAt(rebuild, labels, n).value)
  {
    if n > 0 {
      RunGrows(rebuild, labels, n - 1);
      OneFurther(rebuild, labels, n - 1);
      StepGrowsCalls(StateAt(rebuild, labels, n - 1).value, labels[n - 1]);
      GrowsOn(rebuild, labels, n - 1);
    }
  }

  lemma EscalatesOn(rebuild: bool, labels: seq<Label>, n: nat, i: nat)
    requires n < |labels| && Possible(rebuild, labels, n + 1) && Escalated(rebuild, labels, n, i)
    requires var s := StateAt(rebuild, labels, n).value;
             i < |s.calls| && s.calls[i].StopCall? && Escalates(s, labels[n], StateAt(rebuild, labels, n + 1).value, i)
    ensures Escalated(rebuild, labels, n + 1, i)
  {
    var s, t := StateAt(rebuild, labels, n).value, StateAt(rebuild, labels, n + 1).value;
    assert Refused(rebuild, labels, n, i) <==> RefusedIn(s, labels[n], i);
    assert Yielded(rebuild, labels, n, i) <==> YieldedIn(s, labels[n], i);
  }

  lemma NoProcessStays(s: State, l: Label, i: nat)
    requires Enabled(s, l) && i < |s.calls| && s.calls[i].NoProcess?
    ensures i < |Apply(s, l).calls| && Apply(s, l).calls[i].NoProcess?
  {
    match l
    case Request(_) =>
    case StopStep(j, o) => StopKeepsActive(s, j, o);
    case RunStep(o) => RunLeavesCalls(s, o, i);
  }

  lemma EscalatedOneFurther(rebuild: bool, labels: seq<Label>, n: nat, i: nat)
    requires n < |labels| && Possible(rebuild, labels, n + 1) && Escalated(rebuild, labels, n, i)
    requires NoKillAhead(StateAt(rebuild, labels, n).value) && CallsGrow(rebuild, labels, n + 1)
    ensures Escalated(rebuild, labels, n + 1, i)
  {
    var s := StateAt(rebuild, labels, n).value;
    OneFurther(rebuild, labels, n);
    if i >= |s.calls| {
      NewCallEscalates(rebuild, labels, n, i);
    } else if s.calls[i].StopCall? {
      StepEscalates(s, labels[n], i);
      EscalatesOn(rebuild, labels, n, i);
    } else {
      NoProcessStays(s, labels[n], i);
    }
  }

  /** A callback kills its process exactly if the process refused its interrupt: the interrupt
      failed, or the grace period ran out, or the wait failed. When it is done, it has killed the
      process or seen it exit. */
  lemma {:induction false} KillsExactlyWhenRefused(rebuild: bool, labels: seq<Label>, n: nat, i: nat)
    requires n <= |labels| && Possible(rebuild, labels, n)
    ensures Escalated(rebuild, labels, n, i)
  {
    if n > 0 {
      KillsExactlyWhenRefused(rebuild, labels, n - 1, i);
      RunGrows(rebuild, labels, n);
      RunGrows(rebuild, labels, n - 1);
      EscalatedOneFurther(rebuild, labels, n - 1, i);
    }
  }

  // ---- how a callback ends ----

  /** The kill attempted in the catch block fails. */
  predicate GivesUpIn(s: State, l: Label, i: nat) {
    && l == StopStep(i, Fails) && i < |s.calls| && s.calls[i].StopCall? && s.calls[i].pc == Killing(true)
  }

  /** The wait behind a kill is over. */
  predicate KillAwaitedIn(s: State, l: Label, i: nat) {
    && l.StopStep? && l.call == i && i < |s.calls| && s.calls[i].StopCall? && s.calls[i].pc.KillWait?
  }

  ghost predicate GivesUp(rebuild: bool, labels: seq<Label>, k: nat, i: nat) {
    && k < |labels| && StateAt(rebuild, labels, k).Some? && GivesUpIn(StateAt(rebuild, labels, k).value, labels[k], i)
  }

  ghost predicate KillAwaited(rebuild: bool, labels: seq<Label>, k: nat, i: nat) {
    && k < |labels| && StateAt(rebuild, labels, k).Some? && KillAwaitedIn(StateAt(rebuild, labels, k).value, labels[k], i)
  }

  /** How one step moves callback `i`. */
  predicate Concludes(s: State, l: Label, t: State, i: nat)
    requires i < |s.calls| && s.calls[i].StopCall?
  {
    && i < |t.calls| && t.calls[i].StopCall?
    && if t.calls[i].pc.StopDone? && !s.calls[i].pc.StopDone?
       then (t.calls[i].pc.threw <==> GivesUpIn(s, l, i))
            && (GivesUpIn(s, l, i) || YieldedIn(s, l, i) || KillAwaitedIn(s, l, i))
       else !GivesUpIn(s, l, i) && (s.calls[i].pc.StopDone? ==> t.calls[i].pc == s.calls[i].pc)
  }

  lemma OwnStepConcludes(s: State, i: nat, o: Outcome)
    requires StopEnabled(s, i, o)
    ensures Concludes(s, StopStep(i, o), ApplyStop(s, i, o), i)
  {
    StopKeepsActive(s, i, o);
    OwnStepMoves(s, i, o);
  }

  lemma OwnStepMoves(s: State, i: nat, o: Outcome)
    requires StopEnabled(s, i, o)
    ensures var t := ApplyStop(s, i, o);
            && t.calls[i].StopCall?
            && (t.calls[i].pc.StopDone? ==> t.calls[i].pc.threw == GivesUpIn(s, StopStep(i, o), i))
            && (t.calls[i].pc.StopDone? <==> GivesUpIn(s, StopStep(i, o), i) || YieldedIn(s, StopStep(i, o), i)
                                             || KillAwaitedIn(s, StopStep(i, o), i))
  {
  }

  lemma StepConcludes(s: State, l: Label, i: nat)
    requires Enabled(s, l) && i < |s.calls| && s.calls[i].StopCall?
    ensures Concludes(s, l, Apply(s, l), i)
  {
    match l
    case Request(_) =>
    case RunStep(o) => RunLeavesCalls(s, o, i);
    case StopStep(j, o) => if j == i { OwnStepConcludes(s, i, o); } else { StopKeepsActive(s, j, o); }
  }

  /** What the answers to callback `i` have come to. */
  ghost predicate Concluded(rebuild: bool, labels: seq<Label>, n: nat, i: nat)
    requires n <= |labels| && StateAt(rebuild, labels, n).Some?
  {
    var s := StateAt(rebuild, labels, n).value;
    i < |s.calls| && s.calls[i].StopCall? ==>
      && ((exists k: nat :: k < n && GivesUp(rebuild, labels, k, i)) <==> s.calls[i].pc == StopDone(true))
      && (s.calls[i].pc == StopDone(false) ==>
            exists k: nat :: k < n && (Yielded(rebuild, labels, k, i) || KillAwaited(rebuild, labels, k, i)))
  }

  lemma ConcludesOn(rebuild: bool, labels: seq<Label>, n: nat, i: nat)
    requires n < |labels| && Possible(rebuild, labels, n + 1) && Concluded(rebuild, labels, n, i)
    requires var s := StateAt(rebuild, labels, n).value;
             i < |s.calls| && s.calls[i].StopCall? && Concludes(s, labels[n], StateAt(rebuild, labels, n + 1).value, i)
    ensures Concluded(rebuild, labels, n + 1, i)
  {
    var s := StateAt(rebuild, labels, n).value;
    assert GivesUp(rebuild, labels, n, i) <==> GivesUpIn(s, labels[n], i);
    assert Yielded(rebuild, labels, n, i) <==> YieldedIn(s, labels[n], i);
    assert KillAwaited(rebuild, labels, n, i) <==> KillAwaitedIn(s, labels[n], i);
  }

  lemma NewCallConcludes(rebuild: bool, labels: seq<Label>, n: nat, i: nat)
    requires n < |labels| && Possible(rebuild, labels, n + 1)
    requires NoKillAhead(StateAt(rebuild, labels, n).value) && CallsGrow(rebuild, labels, n + 1)
    requires i >= |StateAt(rebuild, labels, n).value.calls|
    ensures Concluded(rebuild, labels, n + 1, i)
  {
    var s := StateAt(rebuild, labels, n).value;
    OneFurther(rebuild, labels, n);
    NewCallIsFresh(s, labels[n], i);
    forall k: nat | k < n + 1 ensures !GivesUp(rebuild, labels, k, i) {
      assert |StateAt(rebuild, labels, k).value.calls| <= |s.calls|;
    }
  }

  lemma ConcludedOneFurther(rebuild: bool, labels: seq<Label>, n: nat, i: nat)
    requires n < |labels| && Possible(rebuild, labels, n + 1) && Concluded(rebuild, labels, n, i)
    requires NoKillAhead(StateAt(rebuild, labels, n).value) && CallsGrow(rebuild, labels, n + 1)
    ensures Concluded(rebuild, labels, n + 1, i)
  {
    var s := StateAt(rebuild, labels, n).value;
    OneFurther(rebuild, labels, n);
    if i >= |s.calls| {
      NewCallConcludes(rebuild, labels, n, i);
    } else if s.calls[i].StopCall? {
      StepConcludes(s, labels[n], i);
      ConcludesOn(rebuild, labels, n, i);
    } else {
      NoProcessStays(s, labels[n], i);
    }
  }

  /** A callback throws exactly if the kill of its catch block failed; when it ends otherwise it has
      seen the process exit, or has waited for it behind a kill. */
  lemma {:induction false} CallbackEndsExactly(rebuild: bool, labels: seq<Label>, n: nat, i: nat)
    requires n <= |labels| && Possible(rebuild, labels, n)
    ensures Concluded(rebuild, labels, n, i)
  {
    if n > 0 {
      CallbackEndsExactly(rebuild, labels, n - 1, i);
      RunGrows(rebuild, labels, n);
      RunGrows(rebuild, labels, n - 1);
      ConcludedOneFurther(rebuild, labels, n - 1, i);
    }
  }

  // ---- slots behind a callback ----

  predicate InNoSlot(s: State, h: Handle) {
    s.activeHandle != Some(h) && s.setupHandle != Some(h) && s.runHandle != Some(h)
  }

  /** A process that a callback is done with is in no slot. */
  ghost predicate DoneInNoSlot(s: State) {
    forall i :: 0 <= i < |s.calls| && s.calls[i].StopCall? && s.calls[i].pc.StopDone? ==> InNoSlot(s, s.calls[i].handle)
  }

  predicate Shrinks(a: Option<Handle>, b: Option<Handle>) {
    b == a || b == None
  }

  /** Slots are only cleared. */
  predicate SlotsShrink(s: State, t: State) {
    Shrinks(s.activeHandle, t.activeHandle) && Shrinks(s.setupHandle, t.setupHandle) && Shrinks(s.runHandle, t.runHandle)
  }

  lemma StopFreesSlots(s: State, i: nat, o: Outcome)
    requires StopEnabled(s, i, o)
    ensures var t := ApplyStop(s, i, o);
            SlotsShrink(s, t) && (t.calls[i].StopCall? && t.calls[i].pc.StopDone? ==> InNoSlot(t, s.calls[i].handle))
  {
  }

  lemma FinishedFreesSlots(s: State, h: Handle, ended: bool)
    requires InStage(s)
    ensures SlotsShrink(s, FinishTracked(s, h, ended))
  {
  }

  lemma WaitFreesSlots(s: State, o: Outcome)
    requires s.pc.Waiting? && InStage(s)
    ensures SlotsShrink(s, AfterWait(s, o))
  {
  }

  lemma LaunchFillsSlots(s: State, h: Handle)
    requires s.pc.Launching? && InStage(s) && h < |s.launched| && InNoSlot(s, h)
    ensures InNoSlot(AfterLaunch(s), h)
  {
  }

  lemma RunFreesSlots(s: State, o: Outcome, h: Handle)
    requires PcInv(s) && RunEnabled(s, o) && h < |s.launched| && InNoSlot(s, h)
    ensures InNoSlot(ApplyRun(s, o), h)
  {
    match s.pc
    case Launching(_) => if o.Done? { LaunchFillsSlots(s, h); }
    case Stopping(_, g, _) => FinishedFreesSlots(s, g, false);
    case Waiting(_, _) => WaitFreesSlots(s, o);
    case _ =>
  }

  lemma StepFreesSlots(s: State, l: Label)
    requires Inv(s) && DoneInNoSlot(s) && NoKillAhead(s) && Enabled(s, l)
    ensures DoneInNoSlot(Apply(s, l))
  {
    var t := Apply(s, l);
    forall i | 0 <= i < |t.calls| && t.calls[i].StopCall? && t.calls[i].pc.StopDone? ensures InNoSlot(t, t.calls[i].handle) {
      DoneWas(s, l, i);
      match l {
        case Request(_) =>
        case RunStep(o) => RunFreesSlots(s, o, s.calls[i].handle);
        case StopStep(j, o) => StopFreesSlots(s, j, o);
      }
    }
  }

  /** Who is done was done before, or has just ended. */
  lemma DoneWas(s: State, l: Label, i: nat)
    requires Enabled(s, l) && NoKillAhead(s) && i < |Apply(s, l).calls|
    requires Apply(s, l).calls[i].StopCall? && Apply(s, l).calls[i].pc.StopDone?
    ensures i < |s.calls| && s.calls[i].StopCall? && s.calls[i].handle == Apply(s, l).calls[i].handle
    ensures (l.StopStep? && l.call == i) || s.calls[i].pc.StopDone?
  {
    if i >= |s.calls| {
      NewCallIsFresh(s, l, i);
    } else {
      match l
      case Request(_) =>
      case RunStep(o) => RunLeavesCalls(s, o, i);
      case StopStep(j, o) => StopKeepsActive(s, j, o);
    }
  }

  lemma SlotsOneFurther(rebuild: bool, labels: seq<Label>, k: nat)
    requires k < |labels| && Possible(rebuild, labels, k + 1) && DoneInNoSlot(StateAt(rebuild, labels, k).value)
    ensures DoneInNoSlot(StateAt(rebuild, labels, k + 1).value)
  {
    var s := StateAt(rebuild, labels, k).value;
    OneFurther(rebuild, labels, k);
    Reached(rebuild, labels, k);
    RunGrows(rebuild, labels, k);
    StepFreesSlots(s, labels[k]);
  }

  /** No slot refers to a process that a callback is done with. */
  lemma {:induction false} CallbacksClearSlots(rebuild: bool, labels: seq<Label>, n: nat)
    requires n <= |labels| && Possible(rebuild, labels, n)
    ensures DoneInNoSlot(StateAt(rebuild, labels, n).value)
  {
    if n > 0 {
      CallbacksClearSlots(rebuild, labels, n - 1);
      SlotsOneFurther(rebuild, labels, n - 1);
    }
  }
}
