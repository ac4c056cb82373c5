/** Progress trackers and handle slots of the ASCT integration, over every interleaving
    of `run` with stop and cancel callbacks. */
module AsctTrackers {
  import opened Wrappers
  import opened Asct

  function Count(log: seq<Event>, e: Event): nat {
    if log == [] then 0
    else Count(log[..|log| - 1], e) + if log[|log| - 1] == e then 1 else 0
  }

  lemma CountAppend(log: seq<Event>, last: Event)
    ensures forall e :: Count(log + [last], e) == Count(log, e) + if last == e then 1 else 0
  {
    assert (log + [last])[..|log|] == log;
  }

  /** The stages of `run` use different trackers. */
  predicate DistinctStages(program: seq<Op>) {
    forall i, j :: 0 <= i < j < |program| && program[i].Stage? && program[j].Stage? ==>
      program[i] != program[j]
  }

  predicate StageBefore(program: seq<Op>, t: Tracker, limit: nat)
    requires limit <= |program|
  {
    exists j :: 0 <= j < limit && program[j] == Stage(t)
  }

  lemma ProgramStages(rebuild: bool)
    ensures DistinctStages(Program(rebuild))
    ensures StageBefore(Program(rebuild), Benchmarks, |Program(rebuild)|)
    ensures rebuild <==> StageBefore(Program(rebuild), VenvSetup, |Program(rebuild)|)
    ensures rebuild <==> StageBefore(Program(rebuild), PackageInstall, |Program(rebuild)|)
  {
    if rebuild {
      RebuildStages();
      assert Program(true)[11] == Stage(VenvSetup) && Program(true)[22] == Stage(PackageInstall);
      assert Program(true)[33] == Stage(Benchmarks);
    } else {
      ReuseStages();
      assert Program(false)[12] == Stage(Benchmarks);
    }
  }

  /** Where the stages are. */
  lemma RebuildStages()
    ensures |Program(true)| == 36
    ensures forall i :: 0 <= i < 36 && Program(true)[i].Stage? ==> i == 11 || i == 22 || i == 33
    ensures Program(true)[11] == Stage(VenvSetup) && Program(true)[22] == Stage(PackageInstall)
    ensures Program(true)[33] == Stage(Benchmarks)
  {
  }

  lemma ReuseStages()
    ensures |Program(false)| == 15
    ensures forall i :: 0 <= i < 15 && Program(false)[i].Stage? ==> i == 12
    ensures Program(false)[12] == Stage(Benchmarks)
  {
  }

  /** How many leading operations `run` has at least begun. */
  function Begun(s: State): nat {
    match s.pc
    case At(op) => op
    case Awaiting(op) => op
    case Settled(_) => |s.program|
    case pc => pc.op + 1
  }

  predicate Holding(s: State) {
    InStage(s) && (s.pc.Stopping? || s.pc.Waiting?)
  }

  /** The tracker that must still be ended, if any. */
  function OpenTracker(s: State): Option<Tracker> {
    if !InStage(s) then None
    else if Holding(s) then s.activeTracker
    else Some(StageTracker(s))
  }

  predicate PcInv(s: State) {
    && Begun(s) <= |s.program|
    && (s.pc.Awaiting? ==> s.pc.op < |s.program| && s.program[s.pc.op].Await?)
    && (s.pc.Normalizing? ==> s.program[s.pc.op].Stage?)
    && (s.pc.Updating? || s.pc.Launching? || s.pc.Stopping? || s.pc.Waiting? ==> InStage(s))
    && (Holding(s) ==> s.pc.handle < |s.launched| && s.launched[s.pc.handle] == StageTracker(s))
    && (s.pc.Stopping? ==> s.calls[s.pc.call].StopCall? && s.calls[s.pc.call].handle == s.pc.handle)
  }

  /** The slots refer to the process `run` is waiting for, or to none. */
  predicate SlotInv(s: State) {
    && (s.activeHandle.Some? <==> s.activeTracker.Some?)
    && (s.activeHandle.Some? ==> Holding(s) && s.activeHandle.value == s.pc.handle
                                 && s.activeTracker.value == StageTracker(s))
    && (s.setupHandle.Some? ==> Holding(s) && s.setupHandle.value == s.pc.handle && !StageTracker(s).Benchmarks?)
    && (s.runHandle.Some? ==> Holding(s) && s.runHandle.value == s.pc.handle && StageTracker(s).Benchmarks?)
  }

  /** A callback captured a process together with the tracker it was launched for. */
  ghost predicate CallInv(s: State) {
    forall i :: 0 <= i < |s.calls| && s.calls[i].StopCall? ==>
      s.calls[i].handle < |s.launched| && s.calls[i].tracker == Some(s.launched[s.calls[i].handle])
  }

  ghost predicate LaunchInv(s: State) {
    && (forall g, h :: 0 <= g < h < |s.launched| ==> s.launched[g] != s.launched[h])
    && (forall h :: 0 <= h < |s.launched| ==> Count(s.log, Started(s.launched[h])) == 1)
    && (InStage(s) && !Holding(s) ==> StageTracker(s) !in s.launched)
  }

  /** Exactly the stages begun so far have started their tracker, each once; `run` may
      have thrown before some of them. */
  ghost predicate StartInv(s: State) {
    && Begun(s) <= |s.program|
    && forall t: Tracker ::
         && Count(s.log, Started(t)) <= 1
         && (Count(s.log, Started(t)) == 1 ==> StageBefore(s.program, t, Begun(s)))
         && (s.pc != Settled(false) && StageBefore(s.program, t, Begun(s)) ==> Count(s.log, Started(t)) == 1)
  }

  ghost predicate BalanceInv(s: State) {
    forall t: Tracker ::
      Count(s.log, Started(t)) == Count(s.log, Ended(t)) + if OpenTracker(s) == Some(t) then 1 else 0
  }

  ghost predicate Inv(s: State) {
    && DistinctStages(s.program)
    && PcInv(s) && SlotInv(s) && CallInv(s) && LaunchInv(s) && StartInv(s) && BalanceInv(s)
  }

  // ---- counting ----

  /** The events from `s` to `t` start no tracker and end exactly `done`. */
  ghost predicate Ends(s: State, t: State, done: Option<Tracker>) {
    && (forall x: Tracker :: Count(t.log, Started(x)) == Count(s.log, Started(x)))
    && (forall x: Tracker :: Count(t.log, Ended(x)) == Count(s.log, Ended(x)) + if done == Some(x) then 1 else 0)
  }

  lemma EmitEnds(s: State, e: Event)
    requires !e.Started?
    ensures Ends(s, Emit(s, e), if e.Ended? then Some(e.tracker) else None)
  {
    CountAppend(s.log, e);
  }

  lemma StageBeforeNext(program: seq<Op>, t: Tracker, k: nat)
    requires k < |program|
    ensures StageBefore(program, t, k + 1) <==> StageBefore(program, t, k) || program[k] == Stage(t)
  {
    if StageBefore(program, t, k) {
      var j :| 0 <= j < k && program[j] == Stage(t);
      assert 0 <= j < k + 1;
    } else if program[k] == Stage(t) {
      assert 0 <= k < k + 1;
    }
  }

  /** Starts stay accounted for when no stage begins. */
  lemma StartsKept(s: State, t: State, done: Option<Tracker>)
    requires StartInv(s) && Ends(s, t, done) && t.program == s.program
    requires Begun(t) == Begun(s) || t.pc == Settled(false)
    requires t.pc == Settled(false) || s.pc != Settled(false)
    ensures StartInv(t)
  {
    if Begun(t) != Begun(s) {
      forall x: Tracker | StageBefore(s.program, x, Begun(s))
        ensures StageBefore(t.program, x, Begun(t))
      {
        var j :| 0 <= j < Begun(s) && s.program[j] == Stage(x);
        assert 0 <= j < Begun(t);
      }
    }
  }

  lemma LaunchesKept(s: State, t: State, done: Option<Tracker>)
    requires LaunchInv(s) && Ends(s, t, done) && t.program == s.program && t.launched == s.launched
    requires !InStage(t) || Holding(t) || t.pc == s.pc || (s.pc.Updating? && t.pc == Launching(s.pc.op))
    ensures LaunchInv(t)
  {
  }

  // ---- one step ----

  lemma RequestKeepsInv(s: State, kind: Interrupt)
    requires Inv(s)
    ensures Inv(Apply(s, Request(kind)))
  {
    var s1 := Emit(s, Requested(kind)).(interrupt := Some(kind));
    var t := BeginStop(s1);
    EmitEnds(s, Requested(kind));
    if s.activeHandle.Some? {
      EmitEnds(s1, Interrupted(s.activeHandle.value, |s.calls|));
    }
    assert Ends(s, t, None);
    KeepsWithSamePc(s, t, None);
  }

  /** A step of a callback leaves `run` where it is. */
  lemma KeepsWithSamePc(s: State, t: State, done: Option<Tracker>)
    requires Inv(s) && Ends(s, t, done)
    requires t.program == s.program && t.pc == s.pc && t.launched == s.launched
    requires PcInv(t) && SlotInv(t) && CallInv(t)
    requires done.Some? ==> OpenTracker(s) == done && OpenTracker(t) == None
    requires done.None? ==> OpenTracker(t) == OpenTracker(s)
    ensures Inv(t)
  {
    StartsKept(s, t, done);
    LaunchesKept(s, t, done);
  }

  lemma FinishStopKeepsInv(s: State, i: nat, threw: bool)
    requires Inv(s) && i < |s.calls| && s.calls[i].StopCall?
    ensures Inv(FinishStop(s, i, threw))
  {
    var c := s.calls[i];
    var t := FinishStop(s, i, threw);
    var ends := s.activeTracker == c.tracker;
    EmitEnds(s, Ended(c.tracker.value));
    assert Ends(s, t, if ends then c.tracker else None);
    if ends {
      assert s.activeHandle == Some(c.handle);
    }
    KeepsWithSamePc(s, t, if ends then c.tracker else None);
  }

  lemma MoveCallKeepsInv(s: State, i: nat, pc: StopPc)
    requires Inv(s) && i < |s.calls| && s.calls[i].StopCall?
    ensures Inv(SetCall(s, i, pc))
  {
    KeepsWithSamePc(s, SetCall(s, i, pc), None);
  }

  lemma BeginKillKeepsInv(s: State, i: nat, inCatch: bool)
    requires Inv(s) && i < |s.calls| && s.calls[i].StopCall?
    ensures Inv(BeginKill(s, i, inCatch))
  {
    EmitEnds(s, Killed(s.calls[i].handle, i));
    KeepsWithSamePc(s, BeginKill(s, i, inCatch), None);
  }

  lemma StopKeepsInv(s: State, i: nat, o: Outcome)
    requires Inv(s) && StopEnabled(s, i, o)
    ensures Inv(ApplyStop(s, i, o))
  {
    MoveCallKeepsInv(s, i, InterruptWait);
    MoveCallKeepsInv(s, i, KillWait);
    BeginKillKeepsInv(s, i, true);
    BeginKillKeepsInv(s, i, false);
    FinishStopKeepsInv(s, i, true);
    FinishStopKeepsInv(s, i, false);
  }

  lemma BeginStageKeepsInv(s: State)
    requires Inv(s) && s.pc.At? && s.pc.op < |s.program| && s.program[s.pc.op].Stage?
    ensures Inv(ApplyOp(s))
  {
    var op := s.pc.op;
    var x := s.program[op].tracker;
    var t := ApplyOp(s);
    CountAppend(s.log, Started(x));
    assert !StageBefore(s.program, x, op);
    forall y: Tracker
      ensures StageBefore(s.program, y, op + 1) <==> StageBefore(s.program, y, op) || y == x
    {
      StageBeforeNext(s.program, y, op);
    }
    assert x !in s.launched;
  }

  lemma OpKeepsInv(s: State)
    requires Inv(s) && s.pc.At? && s.pc.op <= |s.program|
    ensures Inv(ApplyOp(s))
  {
    var op := s.pc.op;
    if op == |s.program| {
      EmitEnds(s, Returned);
      KeepsOutsideStages(s, ApplyOp(s));
    } else if s.program[op].Stage? {
      BeginStageKeepsInv(s);
    } else if s.program[op].Check? && s.interrupt.None? {
      EmitEnds(s, Checked);
      KeepsOutsideStages(s, ApplyOp(s));
    } else {
      KeepsOutsideStages(s, ApplyOp(s));
    }
  }

  lemma KeepsOutsideStages(s: State, t: State)
    requires Inv(s) && !InStage(s) && s.pc != Settled(false)
    requires Ends(s, t, None) && !InStage(t) && t == s.(pc := t.pc, log := t.log)
    requires
      || t.pc == Settled(false)
      || Begun(t) == Begun(s)
      || (Begun(t) == Begun(s) + 1 && Begun(s) < |s.program| && !s.program[Begun(s)].Stage?)
    requires PcInv(t)
    ensures Inv(t)
  {
    LaunchesKept(s, t, None);
    AdvanceKeepsStarts(s, t, None);
  }

  /** Moving on, or throwing, past an operation whose stage, if any, has begun. */
  lemma AdvanceKeepsStarts(s: State, t: State, done: Option<Tracker>)
    requires StartInv(s) && Ends(s, t, done) && t.program == s.program && s.pc != Settled(false)
    requires
      || t.pc == Settled(false)
      || Begun(t) == Begun(s)
      || (Begun(t) == Begun(s) + 1 && Begun(s) < |s.program| && !s.program[Begun(s)].Stage?)
    ensures StartInv(t)
  {
    if t.pc == Settled(false) || Begun(t) == Begun(s) {
      StartsKept(s, t, done);
    } else {
      forall x: Tracker
        ensures StageBefore(s.program, x, Begun(t)) <==> StageBefore(s.program, x, Begun(s))
      {
        StageBeforeNext(s.program, x, Begun(s));
      }
    }
  }

  /** A launch keeps the stage, its tracker and the bookkeeping aligned. */
  lemma LaunchShape(s: State)
    requires Inv(s) && s.pc.Launching?
    ensures var t := AfterLaunch(s);
            && t.program == s.program && t.launched == s.launched + [StageTracker(s)]
            && Holding(t) && t.pc.op == s.pc.op && t.pc.handle == |s.launched|
            && t.activeHandle == Some(|s.launched|) && t.activeTracker == Some(StageTracker(s))
            && PcInv(t) && SlotInv(t)
  {
  }

  lemma LaunchEnds(s: State)
    requires s.pc.Launching? && InStage(s)
    ensures Ends(s, AfterLaunch(s), None)
  {
    var h := |s.launched|;
    var s1 := Emit(s, Launched(h));
    EmitEnds(s, Launched(h));
    EmitEnds(s1, Interrupted(h, |s.calls|));
    EmitEnds(s1, Waited(h));
    assert AfterLaunch(s).log == Emit(s1, Interrupted(h, |s.calls|)).log || AfterLaunch(s).log == Emit(s1, Waited(h)).log;
  }

  lemma LaunchCalls(s: State)
    requires Inv(s) && s.pc.Launching?
    ensures CallInv(AfterLaunch(s))
  {
    var t := AfterLaunch(s);
    forall i | 0 <= i < |t.calls| && t.calls[i].StopCall?
      ensures t.calls[i].handle < |t.launched| && t.calls[i].tracker == Some(t.launched[t.calls[i].handle])
    {
      if i < |s.calls| {
        assert t.calls[i] == s.calls[i];
      }
    }
  }

  lemma LaunchKeepsInv(s: State)
    requires Inv(s) && s.pc.Launching?
    ensures Inv(AfterLaunch(s))
  {
    var t := AfterLaunch(s);
    LaunchShape(s);
    LaunchEnds(s);
    LaunchCalls(s);
    StartsKept(s, t, None);
    assert Count(s.log, Started(StageTracker(s))) == 1 by {
      assert s.program[s.pc.op] == Stage(StageTracker(s));
      assert StageBefore(s.program, StageTracker(s), Begun(s));
    }
  }

  lemma FinishTrackedShape(s: State, h: Handle, progressEnded: bool)
    requires Inv(s) && Holding(s) && h == s.pc.handle
    requires progressEnded ==> s.activeTracker.None?
    ensures var t := FinishTracked(s, h, progressEnded);
            && t == s.(activeHandle := None, activeTracker := None, setupHandle := None, runHandle := None, log := t.log)
            && Ends(s, t, s.activeTracker)
  {
    EmitEnds(s, Ended(StageTracker(s)));
  }

  lemma LeaveShape(s: State, u: State, failed: bool)
    requires PcInv(s) && Holding(s)
    requires u == s.(activeHandle := None, activeTracker := None, setupHandle := None, runHandle := None, log := u.log)
    ensures var t := LeaveStage(u, failed);
            t == u.(pc := t.pc) && !InStage(t) && PcInv(t) && SlotInv(t)
  {
  }

  lemma LeaveStageKeepsInv(s: State, h: Handle, progressEnded: bool, failed: bool)
    requires Inv(s) && Holding(s) && h == s.pc.handle
    requires progressEnded ==> s.activeTracker.None?
    ensures Inv(LeaveStage(FinishTracked(s, h, progressEnded), failed))
  {
    var u := FinishTracked(s, h, progressEnded);
    var t := LeaveStage(u, failed);
    FinishTrackedShape(s, h, progressEnded);
    LeaveShape(s, u, failed);
    LaunchesKept(s, t, s.activeTracker);
    AdvanceKeepsStarts(s, t, s.activeTracker);
  }

  /** Ending the tracker on success is the same as leaving it to the `finally` block. */
  lemma SuccessEndsSameTracker(s: State)
    requires Inv(s) && Holding(s)
    ensures FinishTracked(EndTrackedProgress(s, StageTracker(s)), s.pc.handle, true) ==
              FinishTracked(s, s.pc.handle, false)
  {
  }

  lemma WaitKeepsInv(s: State, o: Outcome)
    requires Inv(s) && s.pc.Waiting? && RunEnabled(s, o)
    ensures Inv(AfterWait(s, o))
  {
    if o.Exits? && s.interrupt.None? {
      var s1 := s.(exitCode := o.code);
      assert Inv(s1);
      LeaveStageKeepsInv(s1, s.pc.handle, false, false);
      SuccessEndsSameTracker(s1);
    } else {
      LeaveStageKeepsInv(s, s.pc.handle, false, true);
    }
  }

  lemma LaunchFailureKeepsInv(s: State)
    requires Inv(s) && s.pc.Launching?
    ensures Inv(LeaveStage(Emit(s, Ended(StageTracker(s))), true))
  {
    var t := LeaveStage(Emit(s, Ended(StageTracker(s))), true);
    EmitEnds(s, Ended(StageTracker(s)));
    LaunchesKept(s, t, Some(StageTracker(s)));
    AdvanceKeepsStarts(s, t, Some(StageTracker(s)));
  }

  lemma RunKeepsInv(s: State, o: Outcome)
    requires Inv(s) && RunEnabled(s, o)
    ensures Inv(ApplyRun(s, o))
  {
    match s.pc
    case At(_) => OpKeepsInv(s);
    case Awaiting(_) => AwaitKeepsInv(s, o);
    case Updating(_) =>
      StartsKept(s, ApplyRun(s, o), None);
      LaunchesKept(s, ApplyRun(s, o), None);
    case Launching(_) =>
      LaunchKeepsInv(s);
      LaunchFailureKeepsInv(s);
    case Stopping(op, h, call) =>
      LeaveStageKeepsInv(s, h, false, true);
      BeginWaitKeepsInv(s);
    case Waiting(_, _) => WaitKeepsInv(s, o);
    case Normalizing(_, _) => KeepsOutsideStages(s, ApplyRun(s, o));
  }

  /** An awaited operation is never a stage: stages have their own program points. */
  lemma AwaitKeepsInv(s: State, o: Outcome)
    requires Inv(s) && s.pc.Awaiting? && RunEnabled(s, o)
    ensures Inv(ApplyRun(s, o))
  {
    KeepsOutsideStages(s, ApplyRun(s, o));
  }

  lemma BeginWaitKeepsInv(s: State)
    requires Inv(s) && s.pc.Stopping?
    ensures Inv(BeginWait(s, s.pc.op, s.pc.handle))
  {
    var t := BeginWait(s, s.pc.op, s.pc.handle);
    EmitEnds(s, Waited(s.pc.handle));
    StartsKept(s, t, None);
    LaunchesKept(s, t, None);
  }

  lemma StepKeepsInv(s: State, l: Label)
    requires Inv(s) && Enabled(s, l)
    ensures Inv(Apply(s, l))
  {
    match l
    case Request(kind) => RequestKeepsInv(s, kind);
    case RunStep(o) => RunKeepsInv(s, o);
    case StopStep(i, o) => StopKeepsInv(s, i, o);
  }

  lemma {:induction false} ReachableInv(rebuild: bool, labels: seq<Label>)
    requires Exec(rebuild, labels).Some?
    ensures Inv(Exec(rebuild, labels).value)
    ensures Exec(rebuild, labels).value.program == Program(rebuild)
  {
    if labels == [] {
      ProgramStages(rebuild);
    } else {
      var n := |labels| - 1;
      ReachableInv(rebuild, labels[..n]);
      StepKeepsInv(Exec(rebuild, labels[..n]).value, labels[n]);
      StepKeepsProgram(Exec(rebuild, labels[..n]).value, labels[n]);
    }
  }

  lemma StepKeepsProgram(s: State, l: Label)
    requires Enabled(s, l)
    ensures Apply(s, l).program == s.program
  {
    match l
    case RunStep(o) => RunKeepsProgram(s, o);
    case StopStep(i, o) => StopKeepsProgram(s, i, o);
    case Request(_) =>
  }

  lemma RunKeepsProgram(s: State, o: Outcome)
    requires RunEnabled(s, o)
    ensures ApplyRun(s, o).program == s.program
  {
  }

  lemma StopKeepsProgram(s: State, i: nat, o: Outcome)
    requires StopEnabled(s, i, o)
    ensures ApplyStop(s, i, o).program == s.program
  {
  }

  /** However stop and cancel callbacks interleave with `run`: no tracker is started twice
      or ended before it was started, once `run` has settled every started tracker has been
      ended exactly once, and no slot refers to a process any more. */
  lemma TrackersEndExactlyOnce(rebuild: bool, labels: seq<Label>, t: Tracker)
    requires Exec(rebuild, labels).Some?
    ensures var s := Exec(rebuild, labels).value;
            && Count(s.log, Ended(t)) <= Count(s.log, Started(t)) <= 1
            && (s.pc.Settled? ==> Count(s.log, Ended(t)) == Count(s.log, Started(t)))
            && (s.pc.Settled? ==> s.activeHandle == s.setupHandle == s.runHandle == None
                                  && s.activeTracker == None)
  {
    ReachableInv(rebuild, labels);
  }

  /** A normal return means that exactly the stages of the program have run. */
  lemma NormalReturnRanEveryStage(rebuild: bool, labels: seq<Label>, t: Tracker)
    requires Exec(rebuild, labels).Some? && Exec(rebuild, labels).value.pc == Settled(true)
    ensures Count(Exec(rebuild, labels).value.log, Ended(t)) == if rebuild || t.Benchmarks? then 1 else 0
  {
    ReachableInv(rebuild, labels);
    ProgramStages(rebuild);
    assert Begun(Exec(rebuild, labels).value) == |Program(rebuild)|;
  }
}
