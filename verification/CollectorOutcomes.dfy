/** How runs of the system utilization collector end: whom the stop path leaves running, when
    an output is due, and which errors stand. */
module CollectorOutcomes {
  import opened Wrappers
  import opened Sampling
  import opened Collector
  import opened CollectorSafety
  import opened CollectorRuns

  // ---- the stop path ends the collector ----

  /** A resolved attempt leaves a collector that ended or was sent a kill. */
  ghost predicate Ending(s: State) {
    && (s.attempt.Resolved? ==> s.finished || StopKill in s.log)
    && (GraceOver in s.log ==> Finished in s.log || StopKill in s.log)
    && (s.handle && s.finished ==> Finished in s.log)
    && (s.pc.LaunchingWorkload? || s.pc.StartingCollector? ==> !s.handle && !s.finished)
  }

  lemma AttemptEnds(s: State, o: Outcome)
    requires StopInv(s) && Ending(s) && AttemptEnabled(s, o) && (s.attempt != NoAttempt ==> s.handle)
    ensures Ending(StepAttempt(s, o))
  {
    FollowCounts(s.log);
    var t := StepAttempt(s, o);
    assert forall e :: e in s.log ==> e in t.log;
  }

  /** Everything but the position and an output stays. */
  predicate OnlyMoves(s: State, t: State) {
    && t == s.(pc := t.pc, log := t.log) && (t.log == s.log || t.log == s.log + [Emitted])
    && !t.pc.LaunchingWorkload? && !t.pc.StartingCollector?
  }

  lemma LoopOnlyMoves(s: State, a: Answer)
    ensures OnlyMoves(s, Poll(s, a)) && OnlyMoves(s, AfterLoop(s, a))
    ensures OnlyMoves(s, EnterWait(s)) && OnlyMoves(s, CheckWorkload(s, a))
  {
  }

  lemma ConcludeOnlyMoves(c: Config, s: State, a: Answer, d: real, rows: Option<nat>, killed: bool)
    ensures var t := Conclude(c, s, a, d, rows, killed);
            OnlyMoves(s.(conclusion := t.conclusion, error := t.error), t)
  {
  }

  /** What a step of `run` behind the collector's start leaves to the stop path. */
  predicate LeavesAttempt(s: State, t: State) {
    && (t.attempt == s.attempt || (t.attempt == Interrupting && s.attempt == NoAttempt && s.handle))
    && (t.log == s.log || t.log == s.log + [Emitted] || t.log == s.log + [StopInterrupt])
    && t.handle == s.handle && t.finished == s.finished && t.userStopped == s.userStopped
  }

  lemma LoopLeavesAttempt(c: Config, s: State, a: Answer)
    requires RunEnabled(s) && !s.pc.StartingCollector? && !CleaningUp(s.pc)
    ensures LeavesAttempt(s, StepRun(c, s, a))
    ensures StepRun(c, s, a).pc.StartingCollector? ==> s.pc.LaunchingWorkload?
    ensures !StepRun(c, s, a).pc.LaunchingWorkload?
  {
    match s.pc
    case Polling => LoopOnlyMoves(s, a);
    case InterruptingWorkload(deadline) => LoopOnlyMoves(s.(timedOut := s.timedOut || deadline), a);
    case WaitingEnd => LoopOnlyMoves(s, a);
    case _ =>
  }

  lemma CleanUpLeavesAttempt(c: Config, s: State, a: Answer)
    requires RunEnabled(s) && CleaningUp(s.pc)
    ensures LeavesAttempt(s, StepRun(c, s, a))
    ensures !StepRun(c, s, a).pc.StartingCollector? && !StepRun(c, s, a).pc.LaunchingWorkload?
  {
    match s.pc
    case Stopping(d, call, before) =>
      ConcludeOnlyMoves(c, s, a, d, before, s.calls[call].Answered? && s.calls[call].killed);
    case InspectingAgain(d, killed) => ConcludeOnlyMoves(c, s, a, d, a.rows, killed);
    case _ =>
  }

  lemma RunStepLeavesAttempt(c: Config, s: State, a: Answer)
    requires RunEnabled(s) && !s.pc.StartingCollector?
    ensures LeavesAttempt(s, StepRun(c, s, a))
    ensures StepRun(c, s, a).pc.StartingCollector? ==> s.pc.LaunchingWorkload?
    ensures !StepRun(c, s, a).pc.LaunchingWorkload?
  {
    if CleaningUp(s.pc) {
      CleanUpLeavesAttempt(c, s, a);
    } else {
      LoopLeavesAttempt(c, s, a);
    }
  }

  lemma StartLeavesAttempt(c: Config, s: State, a: Answer)
    ensures OnlyMoves(StartAnswered(s, a), Started(c, s, a))
  {
    LoopOnlyMoves(StartAnswered(s, a), a);
  }

  lemma RunStepEnding(c: Config, s: State, a: Answer)
    requires Ending(s) && (s.attempt != NoAttempt ==> s.handle) && RunEnabled(s)
    ensures Ending(StepRun(c, s, a)) && (StepRun(c, s, a).attempt != NoAttempt ==> StepRun(c, s, a).handle)
  {
    RunStepMovesOn(c, s, a);
    if s.pc.StartingCollector? {
      StartLeavesAttempt(c, s, a);
    } else {
      RunStepLeavesAttempt(c, s, a);
    }
  }

  lemma StepEnding(c: Config, s: State, l: Label)
    requires StopInv(s) && Ending(s) && (s.attempt != NoAttempt ==> s.handle) && Enabled(s, l)
    ensures Ending(Apply(c, s, l)) && (Apply(c, s, l).attempt != NoAttempt ==> Apply(c, s, l).handle)
  {
    match l
    case RunStep(a) => RunStepEnding(c, s, a);
    case AttemptStep(o) => AttemptEnds(s, o);
    case _ => OthersEnding(c, s, l);
  }

  lemma OthersEnding(c: Config, s: State, l: Label)
    requires Ending(s) && Enabled(s, l) && !l.RunStep? && !l.AttemptStep?
    ensures Ending(Apply(c, s, l))
  {
  }

  lemma {:induction false} RunEnding(c: Config, labels: seq<Label>)
    ensures Ending(Run(c, labels)) && (Run(c, labels).attempt != NoAttempt ==> Run(c, labels).handle)
  {
    if labels != [] {
      var n := |labels| - 1;
      RunEnding(c, labels[..n]);
      ReachableStop(c, labels[..n]);
      if Enabled(Run(c, labels[..n]), labels[n]) {
        StepEnding(c, Run(c, labels[..n]), labels[n]);
      }
    }
  }

  /** On every interleaving, a stop attempt that is over leaves a collector that has ended or
      was sent a kill, and so does the end of its grace period; whoever is answered that no
      kill was needed finds the collector ended. */
  lemma StopPathEndsCollector(c: Config, labels: seq<Label>)
    ensures var s := Run(c, labels);
            && (s.attempt.Resolved? ==> s.finished || StopKill in s.log)
            && (GraceOver in s.log ==> Finished in s.log || StopKill in s.log)
            && (forall i :: 0 <= i < |s.calls| && s.calls[i] == Answered(false) ==> s.finished)
  {
    RunEnding(c, labels);
    ReachableStop(c, labels);
    FollowCounts(Run(c, labels).log);
  }

  /** Label `k` answers the kill with a failure. */
  ghost predicate KillFails(c: Config, labels: seq<Label>, k: nat) {
    k < |labels| && labels[k] == AttemptStep(Fails) && Run(c, labels[..k]).attempt.Killing?
  }

  /** The kill is awaited, unless it failed. */
  predicate Awaited(s: State) {
    s.attempt == Resolved(true) ==> s.finished
  }

  lemma StepAwaits(c: Config, s: State, l: Label)
    requires Enabled(s, l) && Awaited(s) && !(l == AttemptStep(Fails) && s.attempt.Killing?)
    ensures Awaited(Apply(c, s, l))
  {
    match l
    case RunStep(a) => RunStepAwaits(c, s, a);
    case _ =>
  }

  lemma RunStepAwaits(c: Config, s: State, a: Answer)
    requires RunEnabled(s) && Awaited(s)
    ensures Awaited(StepRun(c, s, a))
  {
    RunStepMovesOn(c, s, a);
    if s.pc.StartingCollector? {
      StartLeavesAttempt(c, s, a);
    } else {
      RunStepLeavesAttempt(c, s, a);
    }
  }

  /** A stop attempt that killed the collector is over only when the collector has ended, or when
      the kill failed. */
  lemma {:induction false} KillIsAwaited(c: Config, labels: seq<Label>, n: nat)
    requires n <= |labels| && Run(c, labels[..n]).attempt == Resolved(true)
    ensures Run(c, labels[..n]).finished || exists k: nat :: k < n && KillFails(c, labels, k)
  {
    if n > 0 {
      if Run(c, labels[..n - 1]).attempt == Resolved(true) {
        KillIsAwaited(c, labels, n - 1);
        StepFurther(c, labels, n - 1);
      } else if !KillFails(c, labels, n - 1) {
        OneFurther(c, labels, n - 1);
        StepAwaits(c, Run(c, labels[..n - 1]), labels[n - 1]);
      }
    }
  }

  // ---- flags ----

  lemma RunStepKeepsRequest(c: Config, s: State, a: Answer)
    requires RunEnabled(s)
    ensures StepRun(c, s, a).userStopped == s.userStopped
  {
    if s.pc.StartingCollector? {
      StartLeavesAttempt(c, s, a);
    } else {
      RunStepLeavesAttempt(c, s, a);
    }
  }

  lemma StepRequests(c: Config, s: State, l: Label)
    requires Enabled(s, l)
    ensures Apply(c, s, l).userStopped <==> s.userStopped || l.OnStop? || l.OnCancel?
  {
    if l.RunStep? {
      RunStepKeepsRequest(c, s, l.answer);
    }
  }

  lemma RequestOneFurther(c: Config, labels: seq<Label>, k: nat)
    requires k < |labels|
    ensures Run(c, labels[..k + 1]).userStopped <==> Run(c, labels[..k]).userStopped || Requests(c, labels, k)
  {
    OneFurther(c, labels, k);
    var s, l := Run(c, labels[..k]), labels[k];
    if Enabled(s, l) {
      StepRequests(c, s, l);
    }
  }

  /** A request sets the flag, and nothing else does. */
  lemma {:induction false} StoppedExactly(c: Config, labels: seq<Label>, n: nat)
    requires n <= |labels|
    ensures Run(c, labels[..n]).userStopped <==> exists k: nat :: k < n && Requests(c, labels, k)
  {
    if n > 0 {
      StoppedExactly(c, labels, n - 1);
      RequestOneFurther(c, labels, n - 1);
    }
  }

  /** A round of polling is answered with the deadline passed, before anything else ends it. */
  ghost predicate TimesOut(c: Config, labels: seq<Label>, k: nat) {
    && k < |labels| && labels[k].RunStep? && c.launches
    && var s, a := Run(c, labels[..k]), labels[k].answer;
       (s.pc.Polling? || s.pc.StartingCollector?) && !a.completed && !s.userStopped && a.deadline
  }

  predicate Late(s: State) {
    s.timedOut || s.pc == InterruptingWorkload(true)
  }

  lemma PollLate(s: State, a: Answer)
    requires !s.pc.InterruptingWorkload?
    ensures Late(Poll(s, a)) <==> s.timedOut || (!a.completed && !s.userStopped && a.deadline)
    ensures Late(AfterLoop(s, a)) == Late(CheckWorkload(s, a)) == Late(EnterWait(s)) == s.timedOut
  {
  }

  lemma LoopLate(s: State, a: Answer)
    ensures Late(AfterLoop(s, a)) == s.timedOut
  {
  }

  lemma ConcludeLate(c: Config, s: State, a: Answer, d: real, rows: Option<nat>, killed: bool)
    ensures Late(Conclude(c, s, a, d, rows, killed)) == s.timedOut
  {
  }

  lemma RunStepLate(c: Config, s: State, a: Answer)
    requires RunEnabled(s) && NotYet(c, s)
    ensures Late(StepRun(c, s, a)) <==>
              || Late(s)
              || (c.launches && (s.pc.Polling? || s.pc.StartingCollector?) && !a.completed && !s.userStopped && a.deadline)
  {
    match s.pc
    case StartingCollector => PollLate(StartAnswered(s, a), a);
    case Polling => PollLate(s, a);
    case InterruptingWorkload(deadline) => LoopLate(s.(timedOut := s.timedOut || deadline), a);
    case WaitingEnd => PollLate(s, a);
    case LaunchingWorkload =>
  }

  lemma CleanUpLate(c: Config, s: State, a: Answer)
    requires RunEnabled(s) && !InLoop(s.pc) && !s.pc.LaunchingWorkload?
    ensures Late(StepRun(c, s, a)) == s.timedOut
  {
    match s.pc
    case Stopping(d, call, before) =>
      ConcludeLate(c, s, a, d, before, s.calls[call].Answered? && s.calls[call].killed);
    case InspectingAgain(d, killed) => ConcludeLate(c, s, a, d, a.rows, killed);
    case WaitingEnd => PollLate(s, a);
    case Inspecting(_) =>
  }

  lemma OthersLate(c: Config, s: State, l: Label)
    requires Enabled(s, l) && !l.RunStep?
    ensures Late(Apply(c, s, l)) == Late(s)
  {
  }

  lemma LateOneFurther(c: Config, labels: seq<Label>, k: nat)
    requires k < |labels|
    ensures Late(Run(c, labels[..k + 1])) <==> Late(Run(c, labels[..k])) || TimesOut(c, labels, k)
  {
    var s, l := Run(c, labels[..k]), labels[k];
    OneFurther(c, labels, k);
    Phases(c, labels, k);
    if Enabled(s, l) {
      if !l.RunStep? {
        OthersLate(c, s, l);
      } else if NotYet(c, s) {
        RunStepLate(c, s, l.answer);
      } else {
        CleanUpLate(c, s, l.answer);
      }
    }
  }

  /** A run counts as timed out, or is ending its workload for that reason, exactly if a round
      of polling found the deadline passed while the workload was running unrequested. */
  lemma {:induction false} TimedOutExactly(c: Config, labels: seq<Label>, n: nat)
    requires n <= |labels|
    ensures Late(Run(c, labels[..n])) <==> exists k: nat :: k < n && TimesOut(c, labels, k)
  {
    if n > 0 {
      TimedOutExactly(c, labels, n - 1);
      LateOneFurther(c, labels, n - 1);
    }
  }

  lemma RoundGoesOn(c: Config, s: State, a: Answer)
    requires c.launches && (s.pc.Polling? || s.pc.StartingCollector?)
    ensures Enabled(s, RunStep(a))
    ensures var t := Apply(c, s, RunStep(a));
            t.pc.Polling? <==> !a.completed && !s.userStopped && !a.deadline && !t.finished
  {
  }

  /** Another round follows exactly if the workload is still running, nobody asked for an end,
      the deadline has not passed and the collector is still running. */
  lemma PollsOnExactly(c: Config, labels: seq<Label>, k: nat)
    requires k < |labels| && labels[k].RunStep? && c.launches
    requires Run(c, labels[..k]).pc.Polling? || Run(c, labels[..k]).pc.StartingCollector?
    ensures Run(c, labels[..k + 1]).pc.Polling? <==>
              !labels[k].answer.completed && !Run(c, labels[..k]).userStopped && !labels[k].answer.deadline
              && !Run(c, labels[..k + 1]).finished
  {
    OneFurther(c, labels, k);
    RoundGoesOn(c, Run(c, labels[..k]), labels[k].answer);
  }

  // ---- how a run ends ----

  /** Past the check of the workload's own outcome. */
  predicate Past(pc: RunPc) {
    pc.WaitingEnd? || pc.Threw? || pc.Done?
  }

  ghost predicate LaunchFails(c: Config, labels: seq<Label>, k: nat) {
    k < |labels| && Run(c, labels[..k]).pc.LaunchingWorkload? && labels[k].RunStep? && !labels[k].answer.ok
  }

  /** The step at which a launching run looks at its workload's outcome. */
  ghost predicate Checks(c: Config, labels: seq<Label>, k: nat) {
    && k < |labels| && c.launches && labels[k].RunStep?
    && !Past(Run(c, labels[..k]).pc) && !Run(c, labels[..k]).pc.LaunchingWorkload? && Past(Run(c, labels[..k + 1]).pc)
  }

  /** By a step of `run` from `s` to `t`. */
  predicate Decides(c: Config, s: State, a: Answer, t: State) {
    if s.pc.LaunchingWorkload? then
      t.pc == if a.ok then StartingCollector else Threw
    else if !Past(s.pc) && c.launches then
      Past(t.pc) ==> if a.healthy then t.pc.Threw? ==> t.error.Some? else t.pc.Threw?
    else
      t.pc.Threw? ==> t.error.Some?
  }

  lemma WaitDecides(s: State)
    ensures EnterWait(s).pc.Threw? ==> EnterWait(s).error.Some?
    ensures Past(EnterWait(s).pc)
  {
  }

  lemma CheckDecides(s: State, a: Answer)
    ensures var t := CheckWorkload(s, a); if a.healthy then t.pc.Threw? ==> t.error.Some? else t.pc.Threw?
  {
    WaitDecides(s);
  }

  lemma LoopDecides(s: State, a: Answer)
    ensures var t := Poll(s, a); Past(t.pc) ==> if a.healthy then t.pc.Threw? ==> t.error.Some? else t.pc.Threw?
    ensures var t := AfterLoop(s, a); Past(t.pc) ==> if a.healthy then t.pc.Threw? ==> t.error.Some? else t.pc.Threw?
  {
    CheckDecides(s, a);
  }

  lemma ConcludeDecides(c: Config, s: State, a: Answer, d: real, rows: Option<nat>, killed: bool)
    ensures var t := Conclude(c, s, a, d, rows, killed);
            if a.healthy then t.pc.Threw? ==> t.error.Some? else t.pc.Threw?
  {
    var error := Resolve(c.interval, d, MinimumSamples, Eligible(rows, c.interval, d), s.error, killed);
    CheckDecides(s.(conclusion := Some(Conclusion(d, rows, s.error, killed)), error := error), a);
  }

  lemma RunStepDecides(c: Config, s: State, a: Answer)
    requires RunEnabled(s) && (s.pc.Polling? || s.pc.InterruptingWorkload? || CleaningUp(s.pc) ==> c.launches)
    ensures Decides(c, s, a, StepRun(c, s, a))
  {
    match s.pc
    case LaunchingWorkload =>
    case StartingCollector => LoopDecides(StartAnswered(s, a), a); WaitDecides(StartAnswered(s, a));
    case Polling => LoopDecides(s, a);
    case InterruptingWorkload(deadline) => LoopDecides(s.(timedOut := s.timedOut || deadline), a);
    case Stopping(d, call, before) =>
      ConcludeDecides(c, s, a, d, before, s.calls[call].Answered? && s.calls[call].killed);
    case InspectingAgain(d, killed) => ConcludeDecides(c, s, a, d, a.rows, killed);
    case Inspecting(_) =>
    case WaitingEnd => WaitDecides(s);
  }

  /** Label `k` makes the run throw. */
  ghost predicate Fatal(c: Config, labels: seq<Label>, k: nat) {
    LaunchFails(c, labels, k) || (Checks(c, labels, k) && !labels[k].answer.healthy)
  }

  /** Why a run has thrown. */
  ghost predicate ThrowsFor(c: Config, labels: seq<Label>, n: nat)
    requires n <= |labels|
  {
    Run(c, labels[..n]).error.Some? || exists k: nat :: k < n && Fatal(c, labels, k)
  }

  lemma LaunchesInLoop(c: Config, labels: seq<Label>, n: nat)
    requires n <= |labels|
    ensures var s := Run(c, labels[..n]); s.pc.Polling? || s.pc.InterruptingWorkload? || CleaningUp(s.pc) ==> c.launches
  {
    Phases(c, labels, n);
  }

  /** An error stays unless the clean-up resolves it. */
  lemma ErrorStays(c: Config, s: State, l: Label)
    requires Enabled(s, l) && s.error.Some? && Past(s.pc)
    ensures Apply(c, s, l).error.Some?
  {
  }

  lemma ThrowsOneFurther(c: Config, labels: seq<Label>, k: nat)
    requires k < |labels| && Run(c, labels[..k + 1]).pc.Threw? && !Run(c, labels[..k]).pc.Threw?
    ensures Fatal(c, labels, k) || Run(c, labels[..k + 1]).error.Some?
  {
    var s, l := Run(c, labels[..k]), labels[k];
    OneFurther(c, labels, k);
    LaunchesInLoop(c, labels, k);
    if l.RunStep? {
      RunStepDecides(c, s, l.answer);
    } else {
      OthersLeaveRun(c, s, l);
    }
  }

  lemma ThrownOneFurther(c: Config, labels: seq<Label>, k: nat)
    requires k < |labels| && Run(c, labels[..k]).pc.Threw?
    ensures Run(c, labels[..k + 1]).pc.Threw?
    ensures Run(c, labels[..k]).error.Some? ==> Run(c, labels[..k + 1]).error.Some?
  {
    OneFurther(c, labels, k);
    if Enabled(Run(c, labels[..k]), labels[k]) {
      OthersLeaveRun(c, Run(c, labels[..k]), labels[k]);
      if Run(c, labels[..k]).error.Some? {
        ErrorStays(c, Run(c, labels[..k]), labels[k]);
      }
    }
  }

  lemma CauseOneFurther(c: Config, labels: seq<Label>, n: nat)
    requires n < |labels| && Run(c, labels[..n + 1]).pc.Threw?
    requires Run(c, labels[..n]).pc.Threw? ==> ThrowsFor(c, labels, n)
    ensures ThrowsFor(c, labels, n + 1)
  {
    if Run(c, labels[..n]).pc.Threw? {
      ThrownOneFurther(c, labels, n);
    } else {
      ThrowsOneFurther(c, labels, n);
    }
  }

  lemma {:induction false} ThrowHasCause(c: Config, labels: seq<Label>, n: nat)
    requires n <= |labels| && Run(c, labels[..n]).pc.Threw?
    ensures ThrowsFor(c, labels, n)
  {
    if n > 0 {
      if Run(c, labels[..n - 1]).pc.Threw? {
        ThrowHasCause(c, labels, n - 1);
      }
      CauseOneFurther(c, labels, n - 1);
    }
  }

  /** A thrown run stays thrown. */
  lemma {:induction false} ThrownStays(c: Config, labels: seq<Label>, i: nat, j: nat)
    requires i <= j <= |labels| && Run(c, labels[..i]).pc.Threw?
    ensures Run(c, labels[..j]).pc.Threw?
  {
    if i < j {
      ThrownStays(c, labels, i, j - 1);
      ThrownOneFurther(c, labels, j - 1);
    }
  }

  lemma CauseThrows(c: Config, labels: seq<Label>, k: nat)
    requires Fatal(c, labels, k)
    ensures Run(c, labels).pc.Threw?
  {
    OneFurther(c, labels, k);
    LaunchesInLoop(c, labels, k);
    if Enabled(Run(c, labels[..k]), labels[k]) {
      RunStepDecides(c, Run(c, labels[..k]), labels[k].answer);
    }
    ThrownStays(c, labels, k + 1, |labels|);
    assert labels[..|labels|] == labels;
  }

  /** A run that is over has come to its output if and only if its workload was launched, its
      workload's failure, if any, was excused, and no error stands. */
  lemma OutputExactly(c: Config, labels: seq<Label>)
    requires Run(c, labels).pc.Done? || Run(c, labels).pc.Threw?
    ensures Run(c, labels).pc.Done? <==>
              && Run(c, labels).error.None?
              && (forall k: nat :: !LaunchFails(c, labels, k))
              && (forall k: nat :: Checks(c, labels, k) ==> labels[k].answer.healthy)
  {
    OutputIsBacked(c, labels);
    if Run(c, labels).pc.Threw? {
      assert labels[..|labels|] == labels;
      ThrowHasCause(c, labels, |labels|);
      assert Run(c, labels).error.Some? || exists k: nat :: Fatal(c, labels, k);
    } else {
      forall k: nat ensures !LaunchFails(c, labels, k) && (Checks(c, labels, k) ==> labels[k].answer.healthy) {
        NotFatal(c, labels, k);
      }
    }
  }

  lemma NotFatal(c: Config, labels: seq<Label>, k: nat)
    requires !Run(c, labels).pc.Threw?
    ensures !Fatal(c, labels, k)
  {
    if Fatal(c, labels, k) {
      CauseThrows(c, labels, k);
    }
  }

  // ---- which errors stand ----

  /** The collector could not be started, or ended with an error. */
  predicate Errs(s: State, l: Label) {
    || (l.CollectorEnds? && s.handle && !s.finished && l.error.Some?)
    || (l.RunStep? && s.pc.StartingCollector? && !l.answer.ok)
  }

  ghost predicate ErrsAt(c: Config, labels: seq<Label>, k: nat) {
    k < |labels| && Errs(Run(c, labels[..k]), labels[k])
  }

  /** A step that is no conclusion adds the collector's own errors; a conclusion replaces them. */
  predicate ErrorMoves(c: Config, s: State, l: Label, t: State) {
    if t.conclusion == s.conclusion then t.error.Some? <==> s.error.Some? || Errs(s, l)
    else !Errs(s, l) && t.conclusion.Some? && (t.error.None? <==> Acceptable(c, t.conclusion.value))
  }

  lemma LoopErrors(s: State, a: Answer)
    ensures Poll(s, a).error == AfterLoop(s, a).error == EnterWait(s).error == s.error
    ensures Poll(s, a).conclusion == AfterLoop(s, a).conclusion == EnterWait(s).conclusion == s.conclusion
  {
  }

  lemma LoopStepErrors(c: Config, s: State, a: Answer)
    requires RunEnabled(s) && !CleaningUp(s.pc) && !s.pc.StartingCollector?
    ensures StepRun(c, s, a).error == s.error && StepRun(c, s, a).conclusion == s.conclusion
  {
    match s.pc
    case Polling => LoopErrors(s, a);
    case InterruptingWorkload(deadline) => LoopErrors(s.(timedOut := s.timedOut || deadline), a);
    case WaitingEnd => LoopErrors(s, a);
    case _ =>
  }

  lemma StartErrors(c: Config, s: State, a: Answer)
    ensures Started(c, s, a).error == (if a.ok then s.error else Some(RunFailed))
    ensures Started(c, s, a).conclusion == s.conclusion
  {
    StartLeavesAttempt(c, s, a);
  }

  lemma ConcludeErrors(c: Config, s: State, a: Answer, d: real, rows: Option<nat>, killed: bool)
    ensures var t := Conclude(c, s, a, d, rows, killed);
            t.conclusion.Some? && (t.error.None? <==> Acceptable(c, t.conclusion.value))
  {
    ConclusionIsExact(c, s, a, d, rows, killed);
  }

  lemma CleanUpErrors(c: Config, s: State, a: Answer)
    requires RunEnabled(s) && CleaningUp(s.pc)
    ensures var t := StepRun(c, s, a);
            || (t.error == s.error && t.conclusion == s.conclusion)
            || (t.conclusion.Some? && (t.error.None? <==> Acceptable(c, t.conclusion.value)))
  {
    match s.pc
    case Stopping(d, call, before) =>
      ConcludeErrors(c, s, a, d, before, s.calls[call].Answered? && s.calls[call].killed);
    case InspectingAgain(d, killed) => ConcludeErrors(c, s, a, d, a.rows, killed);
    case _ =>
  }

  lemma RunStepErrors(c: Config, s: State, a: Answer)
    requires RunEnabled(s) && (CleaningUp(s.pc) ==> s.conclusion.None?)
    ensures ErrorMoves(c, s, RunStep(a), StepRun(c, s, a))
  {
    if CleaningUp(s.pc) {
      CleanUpErrors(c, s, a);
    } else if s.pc.StartingCollector? {
      StartErrors(c, s, a);
    } else {
      LoopStepErrors(c, s, a);
    }
  }

  lemma StepErrors(c: Config, s: State, l: Label)
    requires Enabled(s, l) && (CleaningUp(s.pc) ==> s.conclusion.None?)
    ensures ErrorMoves(c, s, l, Apply(c, s, l))
  {
    if l.RunStep? {
      RunStepErrors(c, s, l.answer);
    } else {
      OthersErrors(c, s, l);
    }
  }

  lemma OthersErrors(c: Config, s: State, l: Label)
    requires Enabled(s, l) && !l.RunStep?
    ensures Apply(c, s, l).conclusion == s.conclusion
    ensures Apply(c, s, l).error.Some? <==> s.error.Some? || Errs(s, l)
  {
    match l
    case CollectorEnds(_) =>
    case AttemptStep(o) => AttemptErrors(s, o);
    case _ =>
  }

  lemma AttemptErrors(s: State, o: Outcome)
    requires AttemptEnabled(s, o)
    ensures StepAttempt(s, o).conclusion == s.conclusion && StepAttempt(s, o).error == s.error
  {
  }

  /** An error of the collector that no conclusion has weighed. */
  ghost predicate StandsAt(c: Config, labels: seq<Label>, k: nat, concluded: bool) {
    ErrsAt(c, labels, k) && (concluded ==> Run(c, labels[..k]).conclusion.Some?)
  }

  /** What one label adds. */
  lemma ErrorOneFurther(c: Config, labels: seq<Label>, k: nat)
    requires k < |labels|
    ensures ErrorMoves(c, Run(c, labels[..k]), labels[k], Run(c, labels[..k + 1]))
    ensures Run(c, labels[..k + 1]).conclusion != Run(c, labels[..k]).conclusion ==> CleaningUp(Run(c, labels[..k]).pc)
  {
    var s, l := Run(c, labels[..k]), labels[k];
    OneFurther(c, labels, k);
    Phases(c, labels, k);
    if Enabled(s, l) {
      StepErrors(c, s, l);
      if !l.RunStep? {
        OthersErrors(c, s, l);
      } else if s.pc.StartingCollector? {
        StartErrors(c, s, l.answer);
      } else if !CleaningUp(s.pc) {
        LoopStepErrors(c, s, l.answer);
      }
    }
  }

  /** An error stands after `n` labels. */
  ghost predicate Stands(c: Config, labels: seq<Label>, n: nat)
    requires n <= |labels|
  {
    var concluded := Run(c, labels[..n]).conclusion;
    || (concluded.Some? && !Acceptable(c, concluded.value))
    || (exists k: nat :: k < n && StandsAt(c, labels, k, concluded.Some?))
  }

  lemma StandsOneFurther(c: Config, labels: seq<Label>, n: nat)
    requires n < |labels| && Run(c, labels[..n + 1]).conclusion == Run(c, labels[..n]).conclusion
    ensures Stands(c, labels, n + 1) <==> Stands(c, labels, n) || Errs(Run(c, labels[..n]), labels[n])
  {
    var concluded := Run(c, labels[..n]).conclusion.Some?;
    assert StandsAt(c, labels, n, concluded) <==> Errs(Run(c, labels[..n]), labels[n]);
  }

  /** Before the clean-up comes to a conclusion an error stands exactly if the collector could
      not be started or ended with one; afterwards exactly if the samples were not acceptable
      or the collector ended with an error since. */
  lemma {:induction false} ErrorStandsExactly(c: Config, labels: seq<Label>, n: nat)
    requires n <= |labels|
    ensures Run(c, labels[..n]).error.Some? <==> Stands(c, labels, n)
  {
    if n > 0 {
      ErrorStandsExactly(c, labels, n - 1);
      ErrorOneFurther(c, labels, n - 1);
      if Run(c, labels[..n]).conclusion == Run(c, labels[..n - 1]).conclusion {
        StandsOneFurther(c, labels, n - 1);
      } else {
        NoneSince(c, labels, n - 1);
      }
    }
  }

  /** A run that has not concluded never had. */
  lemma NoneSince(c: Config, labels: seq<Label>, n: nat)
    requires n <= |labels| && CleaningUp(Run(c, labels[..n]).pc)
    ensures forall k: nat :: k <= n ==> Run(c, labels[..k]).conclusion.None?
  {
    forall k: nat | k <= n ensures Run(c, labels[..k]).conclusion.None? {
      Phases(c, labels, n);
      ConcludedStays(c, labels, k, n);
    }
  }

  lemma {:induction false} ConcludedStays(c: Config, labels: seq<Label>, k: nat, n: nat)
    requires k <= n <= |labels|
    ensures Run(c, labels[..k]).conclusion.Some? ==> Run(c, labels[..n]).conclusion.Some?
  {
    if k < n {
      ConcludedStays(c, labels, k, n - 1);
      ErrorOneFurther(c, labels, n - 1);
    }
  }

  // ---- the clean-up behind a self-ended workload ----

  /** What an answer of the stop path is worth. */
  predicate Justified(s: State, killed: bool) {
    if killed then StopKill in s.log else s.finished
  }

  /** The clean-up stops the collector before it concludes. */
  predicate Stopped(s: State) {
    && (!s.pc.LaunchingWorkload? && !s.pc.StartingCollector? && !s.pc.Threw? ==> s.handle || s.finished)
    && (s.pc.Stopping? ==> s.finished || StopInterrupt in s.log)
    && (s.pc.Stopping? && s.pc.call < |s.calls| && s.calls[s.pc.call] == Immediate ==> s.finished)
    && (s.pc.InspectingAgain? ==> Justified(s, s.pc.killed))
    && (s.conclusion.Some? ==> Justified(s, s.conclusion.value.killed))
  }

  predicate Answers(s: State) {
    forall i :: 0 <= i < |s.calls| && s.calls[i].Answered? ==> Justified(s, s.calls[i].killed)
  }

  lemma LogGrows(s: State, t: State, e: Event)
    requires s.log <= t.log && e in s.log
    ensures e in t.log
  {
    var i :| 0 <= i < |s.log| && s.log[i] == e;
    assert t.log[i] == e;
  }

  lemma StillJustified(s: State, t: State, killed: bool)
    requires Later(s, t) && Justified(s, killed)
    ensures Justified(t, killed)
  {
    if killed {
      LogGrows(s, t, StopKill);
    }
  }

  /** The position and the conclusion stay. */
  lemma OthersStopped(c: Config, s: State, l: Label)
    requires Stopped(s) && Enabled(s, l) && !l.RunStep?
    requires s.pc.Stopping? ==> s.pc.call < |s.calls|
    ensures Stopped(Apply(c, s, l))
  {
    var t := Apply(c, s, l);
    StepMovesOn(c, s, l);
    OthersLeaveRun(c, s, l);
    OthersLeaveCalls(c, s, l);
    if s.pc.Stopping? && !s.finished { LogGrows(s, t, StopInterrupt); }
    if s.pc.InspectingAgain? { StillJustified(s, t, s.pc.killed); }
    if s.conclusion.Some? { StillJustified(s, t, s.conclusion.value.killed); }
  }

  lemma OthersLeaveCalls(c: Config, s: State, l: Label)
    requires Enabled(s, l) && !l.RunStep?
    ensures var t := Apply(c, s, l);
            |s.calls| <= |t.calls| && forall i :: 0 <= i < |s.calls| && s.calls[i] != Joined ==> t.calls[i] == s.calls[i]
    ensures var t := Apply(c, s, l);
            forall i :: 0 <= i < |s.calls| && s.calls[i] == Joined ==> t.calls[i] != Immediate
  {
  }

  lemma LoopStopped(c: Config, s: State, a: Answer)
    requires Stopped(s) && RunEnabled(s) && !CleaningUp(s.pc)
    requires s.pc.StartingCollector? ==> !s.handle && !s.finished
    ensures Stopped(StepRun(c, s, a))
  {
    if s.pc.StartingCollector? {
      StartLeavesAttempt(c, s, a);
    } else {
      LoopLeavesAttempt(c, s, a);
    }
    LoopPositions(c, s, a);
    if s.conclusion.Some? {
      RunStepMovesOn(c, s, a);
      StillJustified(s, StepRun(c, s, a), s.conclusion.value.killed);
    }
  }

  lemma LoopPositions(c: Config, s: State, a: Answer)
    requires RunEnabled(s) && !CleaningUp(s.pc)
    ensures var t := StepRun(c, s, a);
            !t.pc.Stopping? && !t.pc.InspectingAgain? && t.conclusion == s.conclusion
  {
    if s.pc.StartingCollector? {
      StartErrors(c, s, a);
      PollPositions(StartAnswered(s, a), a);
    } else {
      LoopStepErrors(c, s, a);
      PollPositions(s, a);
      PollPositions(s.(timedOut := true), a);
    }
  }

  lemma PollPositions(s: State, a: Answer)
    ensures !Poll(s, a).pc.Stopping? && !Poll(s, a).pc.InspectingAgain?
    ensures !AfterLoop(s, a).pc.Stopping? && !AfterLoop(s, a).pc.InspectingAgain?
    ensures !EnterWait(s).pc.Stopping? && !EnterWait(s).pc.InspectingAgain?
  {
  }

  lemma InspectedStopped(c: Config, s: State, a: Answer)
    requires StopInv(s) && Stopped(s) && s.pc.Inspecting? && s.conclusion.None?
    ensures Stopped(StepRun(c, s, a))
  {
    FollowCounts(s.log);
    var t := RequestStop(s);
    assert s.attempt == NoAttempt && s.handle && !s.finished ==> t.log[|s.log|] == StopInterrupt;
  }

  lemma ConcludeStopped(c: Config, s: State, a: Answer, d: real, rows: Option<nat>, killed: bool)
    requires Stopped(s) && Justified(s, killed) && CleaningUp(s.pc)
    ensures Stopped(Conclude(c, s, a, d, rows, killed))
  {
    var t := Conclude(c, s, a, d, rows, killed);
    ConcludeOnlyMoves(c, s, a, d, rows, killed);
    ConcludeMovesOn(c, s, a, d, rows, killed);
    StillJustified(s, t, killed);
    ConcludePosition(c, s, a, d, rows, killed);
  }

  lemma ConcludePosition(c: Config, s: State, a: Answer, d: real, rows: Option<nat>, killed: bool)
    ensures var t := Conclude(c, s, a, d, rows, killed);
            Past(t.pc) && t.conclusion == Some(Conclusion(d, rows, s.error, killed))
  {
  }

  lemma StoppingStopped(c: Config, s: State, a: Answer)
    requires Stopped(s) && Answers(s) && s.pc.Stopping? && RunEnabled(s) && s.conclusion.None?
    ensures Stopped(StepRun(c, s, a))
  {
    var killed := s.calls[s.pc.call].Answered? && s.calls[s.pc.call].killed;
    if EnoughBefore(c, s.pc.duration, s.pc.before) {
      ConcludeStopped(c, s, a, s.pc.duration, s.pc.before, killed);
    }
  }

  lemma RunStepStopped(c: Config, s: State, a: Answer)
    requires StopInv(s) && Stopped(s) && Answers(s) && RunEnabled(s) && (CleaningUp(s.pc) ==> s.conclusion.None?)
    requires s.pc.StartingCollector? ==> !s.handle && !s.finished
    ensures Stopped(StepRun(c, s, a))
  {
    match s.pc
    case Inspecting(_) => InspectedStopped(c, s, a);
    case Stopping(_, _, _) => StoppingStopped(c, s, a);
    case InspectingAgain(d, killed) => ConcludeStopped(c, s, a, d, a.rows, killed);
    case _ => LoopStopped(c, s, a);
  }

  /** The call that `run` waits for exists. */
  lemma {:induction false} CallExists(c: Config, labels: seq<Label>, n: nat)
    requires n <= |labels| && Run(c, labels[..n]).pc.Stopping?
    ensures Run(c, labels[..n]).pc.call < |Run(c, labels[..n]).calls|
  {
    if n > 0 {
      var s, l := Run(c, labels[..n - 1]), labels[n - 1];
      if s.pc.Stopping? {
        CallExists(c, labels, n - 1);
      }
      OneFurther(c, labels, n - 1);
      if Enabled(s, l) {
        if l.RunStep? {
          if !CleaningUp(s.pc) { LoopPositions(c, s, l.answer); }
          else { StopsOnce(c, s, l.answer); }
        } else {
          OthersLeaveRun(c, s, l);
          OthersLeaveCalls(c, s, l);
        }
      }
    }
  }

  lemma StopsOnce(c: Config, s: State, a: Answer)
    requires RunEnabled(s) && CleaningUp(s.pc)
    ensures var t := StepRun(c, s, a);
            t.pc.Stopping? ==> s.pc.Inspecting? && t.pc.call == |s.calls| && |t.calls| == |s.calls| + 1
  {
    match s.pc
    case Stopping(d, call, before) =>
      ConcludePosition(c, s, a, d, before, s.calls[call].Answered? && s.calls[call].killed);
    case InspectingAgain(d, killed) => ConcludePosition(c, s, a, d, a.rows, killed);
    case _ =>
  }

  lemma AnswersJustified(c: Config, labels: seq<Label>)
    ensures Answers(Run(c, labels))
  {
    StopPathEndsCollector(c, labels);
    ReachableStop(c, labels);
    FollowCounts(Run(c, labels).log);
  }

  lemma {:induction false} RunStopped(c: Config, labels: seq<Label>, n: nat)
    requires n <= |labels|
    ensures Stopped(Run(c, labels[..n]))
  {
    if n > 0 {
      var s, l := Run(c, labels[..n - 1]), labels[n - 1];
      RunStopped(c, labels, n - 1);
      RunEnding(c, labels[..n - 1]);
      ReachableStop(c, labels[..n - 1]);
      AnswersJustified(c, labels[..n - 1]);
      Phases(c, labels, n - 1);
      if s.pc.Stopping? { CallExists(c, labels, n - 1); }
      StoppedOneFurther(c, labels, n - 1);
    }
  }

  lemma StoppedOneFurther(c: Config, labels: seq<Label>, n: nat)
    requires n < |labels|
    requires var s := Run(c, labels[..n]);
             && StopInv(s) && Ending(s) && Stopped(s) && Answers(s) && (CleaningUp(s.pc) ==> s.conclusion.None?)
             && (s.pc.Stopping? ==> s.pc.call < |s.calls|)
    ensures Stopped(Run(c, labels[..n + 1]))
  {
    var s, l := Run(c, labels[..n]), labels[n];
    OneFurther(c, labels, n);
    if Enabled(s, l) {
      if l.RunStep? {
        RunStepStopped(c, s, l.answer);
      } else {
        OthersStopped(c, s, l);
      }
    }
  }

  /** The clean-up behind a self-ended workload interrupts a collector that has not ended, and
      concludes only about one that has ended or was sent a kill, which the conclusion tells. */
  lemma CleanUpStopsCollector(c: Config, labels: seq<Label>)
    ensures var s := Run(c, labels);
            && (s.pc.Stopping? ==> s.finished || StopInterrupt in s.log)
            && (s.conclusion.Some? && s.conclusion.value.killed ==> StopKill in s.log)
            && (s.conclusion.Some? && !s.conclusion.value.killed ==> s.finished)
  {
    assert labels[..|labels|] == labels;
    RunStopped(c, labels, |labels|);
  }

  // ---- the last count, and the output ----

  /** Label `k` counts the rows behind the stop. */
  ghost predicate CountsAgain(c: Config, labels: seq<Label>, k: nat, rows: Option<nat>) {
    k < |labels| && Run(c, labels[..k]).pc.InspectingAgain? && labels[k].RunStep? && labels[k].answer.rows == rows
  }

  lemma CountOneFurther(c: Config, labels: seq<Label>, k: nat)
    requires k < |labels|
    ensures var was, now := Run(c, labels[..k]).conclusion, Run(c, labels[..k + 1]).conclusion;
            || now == was
            || (now.Some? && (EnoughBefore(c, now.value.duration, now.value.rows)
                              || CountsAgain(c, labels, k, now.value.rows)))
  {
    var s, l := Run(c, labels[..k]), labels[k];
    OneFurther(c, labels, k);
    if Enabled(s, l) {
      if !l.RunStep? {
        OthersLeaveRun(c, s, l);
      } else if !CleaningUp(s.pc) {
        LoopPositions(c, s, l.answer);
      } else {
        CleanUpCounts(c, s, l.answer);
      }
    }
  }

  lemma CleanUpCounts(c: Config, s: State, a: Answer)
    requires RunEnabled(s) && CleaningUp(s.pc)
    ensures var was, now := s.conclusion, StepRun(c, s, a).conclusion;
            || now == was
            || (now.Some? && (EnoughBefore(c, now.value.duration, now.value.rows)
                              || (s.pc.InspectingAgain? && now.value.rows == a.rows)))
  {
    match s.pc
    case Stopping(d, call, before) =>
      ConcludePosition(c, s, a, d, before, s.calls[call].Answered? && s.calls[call].killed);
    case InspectingAgain(d, killed) => ConcludePosition(c, s, a, d, a.rows, killed);
    case _ =>
  }

  /** Samples are found too few only by a count made behind the stop. */
  lemma {:induction false} LastCountDecides(c: Config, labels: seq<Label>, n: nat)
    requires n <= |labels| && Run(c, labels[..n]).conclusion.Some?
    ensures var k := Run(c, labels[..n]).conclusion.value;
            EnoughBefore(c, k.duration, k.rows) || exists m: nat :: CountsAgain(c, labels, m, k.rows)
  {
    if n > 0 {
      CountOneFurther(c, labels, n - 1);
      if Run(c, labels[..n - 1]).conclusion == Run(c, labels[..n]).conclusion {
        LastCountDecides(c, labels, n - 1);
      }
    }
  }

  /** Label `k` counts the rows before the stop, and they are not enough. */
  ghost predicate CountsShort(c: Config, labels: seq<Label>, k: nat) {
    && k < |labels| && Run(c, labels[..k]).pc.Inspecting? && labels[k].RunStep?
    && !EnoughBefore(c, Run(c, labels[..k]).pc.duration, labels[k].answer.rows)
  }

  ghost predicate FirstCount(c: Config, labels: seq<Label>, n: nat)
    requires n <= |labels|
  {
    var pc := Run(c, labels[..n]).pc;
    pc.InspectingAgain? || (pc.Stopping? && !EnoughBefore(c, pc.duration, pc.before)) ==>
      exists k: nat :: k < n && CountsShort(c, labels, k)
  }

  lemma FirstCountOneFurther(c: Config, labels: seq<Label>, n: nat)
    requires n < |labels| && FirstCount(c, labels, n)
    ensures FirstCount(c, labels, n + 1)
  {
    var s, l := Run(c, labels[..n]), labels[n];
    OneFurther(c, labels, n);
    if Enabled(s, l) {
      if !l.RunStep? {
        OthersLeaveRun(c, s, l);
      } else if !CleaningUp(s.pc) {
        LoopPositions(c, s, l.answer);
      } else {
        CleanUpPositions(c, s, l.answer);
        assert s.pc.Inspecting? && !EnoughBefore(c, s.pc.duration, l.answer.rows) ==> CountsShort(c, labels, n);
      }
    }
  }

  lemma CleanUpPositions(c: Config, s: State, a: Answer)
    requires RunEnabled(s) && CleaningUp(s.pc)
    ensures var t := StepRun(c, s, a);
            && (t.pc.Stopping? ==> s.pc.Inspecting? && t.pc.duration == s.pc.duration && t.pc.before == a.rows)
            && (t.pc.InspectingAgain? ==> s.pc.Stopping? && !EnoughBefore(c, s.pc.duration, s.pc.before))
  {
    match s.pc
    case Stopping(d, call, before) =>
      ConcludePosition(c, s, a, d, before, s.calls[call].Answered? && s.calls[call].killed);
    case InspectingAgain(d, killed) => ConcludePosition(c, s, a, d, a.rows, killed);
    case _ =>
  }

  /** Rows are counted again only if the first count fell short. */
  lemma {:induction false} RecountNeedsShortCount(c: Config, labels: seq<Label>, n: nat)
    requires n <= |labels|
    ensures FirstCount(c, labels, n)
  {
    if n > 0 {
      RecountNeedsShortCount(c, labels, n - 1);
      FirstCountOneFurther(c, labels, n - 1);
    }
  }

  lemma WaitEnds(c: Config, s: State, a: Answer)
    requires s.pc.WaitingEnd? && s.finished
    ensures Enabled(s, RunStep(a))
    ensures Apply(c, s, RunStep(a)).pc == if s.error.Some? then Threw else Done
  {
  }

  /** Once the collector has ended, a waiting run is over with its next step: with the output if
      no error stands. */
  lemma WaitIsOver(c: Config, labels: seq<Label>, k: nat)
    requires k < |labels| && labels[k].RunStep?
    requires Run(c, labels[..k]).pc.WaitingEnd? && Run(c, labels[..k]).finished
    ensures Run(c, labels[..k + 1]).pc == if Run(c, labels[..k]).error.Some? then Threw else Done
  {
    OneFurther(c, labels, k);
    WaitEnds(c, Run(c, labels[..k]), labels[k].answer);
  }

  lemma WaitEmits(s: State)
    ensures EnterWait(s).pc.Done? ==> Emitted in EnterWait(s).log
  {
    assert EnterWait(s).pc.Done? ==> EnterWait(s).log[|s.log|] == Emitted;
  }

  lemma CheckEmits(s: State, a: Answer)
    ensures CheckWorkload(s, a).pc.Done? ==> Emitted in CheckWorkload(s, a).log
    ensures Poll(s, a).pc.Done? ==> Emitted in Poll(s, a).log
    ensures AfterLoop(s, a).pc.Done? ==> Emitted in AfterLoop(s, a).log
  {
    WaitEmits(s);
  }

  lemma ConcludeEmits(c: Config, s: State, a: Answer, d: real, rows: Option<nat>, killed: bool)
    ensures var t := Conclude(c, s, a, d, rows, killed); t.pc.Done? ==> Emitted in t.log
  {
    var error := Resolve(c.interval, d, MinimumSamples, Eligible(rows, c.interval, d), s.error, killed);
    CheckEmits(s.(conclusion := Some(Conclusion(d, rows, s.error, killed)), error := error), a);
  }

  lemma RunStepEmits(c: Config, s: State, a: Answer)
    requires RunEnabled(s)
    ensures StepRun(c, s, a).pc.Done? ==> Emitted in StepRun(c, s, a).log
  {
    match s.pc
    case StartingCollector => CheckEmits(StartAnswered(s, a), a); WaitEmits(StartAnswered(s, a));
    case Polling => CheckEmits(s, a);
    case InterruptingWorkload(deadline) => CheckEmits(s.(timedOut := s.timedOut || deadline), a);
    case WaitingEnd => WaitEmits(s);
    case Stopping(d, call, before) =>
      ConcludeEmits(c, s, a, d, before, s.calls[call].Answered? && s.calls[call].killed);
    case InspectingAgain(d, killed) => ConcludeEmits(c, s, a, d, a.rows, killed);
    case _ =>
  }

  /** The output is emitted exactly by a run that returns normally. */
  lemma {:induction false} EmittedExactly(c: Config, labels: seq<Label>, n: nat)
    requires n <= |labels|
    ensures Run(c, labels[..n]).pc.Done? <==> Emitted in Run(c, labels[..n]).log
  {
    OutputIsBacked(c, labels[..n]);
    if n > 0 && Run(c, labels[..n]).pc.Done? {
      EmittedExactly(c, labels, n - 1);
      EmitsOneFurther(c, labels, n - 1);
    }
  }

  lemma EmitsOneFurther(c: Config, labels: seq<Label>, k: nat)
    requires k < |labels| && Run(c, labels[..k + 1]).pc.Done?
    requires Run(c, labels[..k]).pc.Done? ==> Emitted in Run(c, labels[..k]).log
    ensures Emitted in Run(c, labels[..k + 1]).log
  {
    var s, l := Run(c, labels[..k]), labels[k];
    OneFurther(c, labels, k);
    StepFurther(c, labels, k);
    if s.pc.Done? {
      LogGrows(s, Run(c, labels[..k + 1]), Emitted);
    } else if l.RunStep? {
      RunStepEmits(c, s, l.answer);
    } else {
      OthersLeaveRun(c, s, l);
    }
  }
}
