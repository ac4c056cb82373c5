/** Whole runs of the system utilization collector, told by their inputs: which runs end in
    the clean-up behind a workload that ended on its own, and which requests are lost. */
module CollectorRuns {
  import opened Wrappers
  import opened Sampling
  import opened Collector
  import opened CollectorSafety

  // ---- one run and its beginnings ----

  /** What no step takes back. */
  predicate Later(s: State, t: State) {
    && s.log <= t.log
    && (s.handle ==> t.handle) && (s.finished ==> t.finished)
    && (s.userStopped ==> t.userStopped) && (s.timedOut ==> t.timedOut)
  }

  /** The metadata once the collector's start has been answered. */
  function StartAnswered(s: State, a: Answer): State {
    if a.ok then s.(handle := true) else s.(finished := true, error := Some(RunFailed))
  }

  lemma LoopMovesOn(s: State, a: Answer)
    ensures Later(s, EnterWait(s)) && Later(s, CheckWorkload(s, a)) && Later(s, AfterLoop(s, a)) && Later(s, Poll(s, a))
  {
  }

  lemma ConcludeMovesOn(c: Config, s: State, a: Answer, d: real, rows: Option<nat>, killed: bool)
    ensures Later(s, Conclude(c, s, a, d, rows, killed))
  {
  }

  lemma RunStepMovesOn(c: Config, s: State, a: Answer)
    requires RunEnabled(s)
    ensures Later(s, StepRun(c, s, a))
  {
    match s.pc
    case LaunchingWorkload =>
    case StartingCollector => LoopMovesOn(StartAnswered(s, a), a);
    case Polling => LoopMovesOn(s, a);
    case InterruptingWorkload(deadline) => LoopMovesOn(s.(timedOut := s.timedOut || deadline), a);
    case Inspecting(_) =>
    case Stopping(d, call, before) =>
      ConcludeMovesOn(c, s, a, d, before, s.calls[call].Answered? && s.calls[call].killed);
    case InspectingAgain(d, killed) => ConcludeMovesOn(c, s, a, d, a.rows, killed);
    case WaitingEnd => LoopMovesOn(s, a);
  }

  lemma AttemptMovesOn(s: State, o: Outcome)
    requires AttemptEnabled(s, o)
    ensures Later(s, StepAttempt(s, o))
  {
  }

  lemma StepMovesOn(c: Config, s: State, l: Label)
    requires Enabled(s, l)
    ensures Later(s, Apply(c, s, l))
  {
    match l
    case RunStep(a) => RunStepMovesOn(c, s, a);
    case AttemptStep(o) => AttemptMovesOn(s, o);
    case _ =>
  }

  /** The run one label further. */
  lemma OneFurther(c: Config, labels: seq<Label>, k: nat)
    requires k < |labels|
    ensures var s := Run(c, labels[..k]);
            Run(c, labels[..k + 1]) == if Enabled(s, labels[k]) then Apply(c, s, labels[k]) else s
  {
    assert labels[..k + 1][..k] == labels[..k];
  }

  lemma StepFurther(c: Config, labels: seq<Label>, k: nat)
    requires k < |labels|
    ensures Later(Run(c, labels[..k]), Run(c, labels[..k + 1]))
  {
    OneFurther(c, labels, k);
    if Enabled(Run(c, labels[..k]), labels[k]) {
      StepMovesOn(c, Run(c, labels[..k]), labels[k]);
    }
  }

  lemma StillLater(s: State, t: State, u: State)
    requires Later(s, t) && Later(t, u)
    ensures Later(s, u)
  {
  }

  lemma {:induction false} RunMovesOn(c: Config, labels: seq<Label>, i: nat, j: nat)
    requires i <= j <= |labels|
    ensures Later(Run(c, labels[..i]), Run(c, labels[..j]))
  {
    if i < j {
      RunMovesOn(c, labels, i, j - 1);
      StepFurther(c, labels, j - 1);
      StillLater(Run(c, labels[..i]), Run(c, labels[..j - 1]), Run(c, labels[..j]));
    }
  }

  // ---- a workload that ends on its own ----

  /** Polling the workload; the first round follows the collector's start at once. */
  predicate InLoop(pc: RunPc) {
    pc.StartingCollector? || pc.Polling? || pc.InterruptingWorkload?
  }

  predicate CleaningUp(pc: RunPc) {
    pc.Inspecting? || pc.Stopping? || pc.InspectingAgain?
  }

  /** The polling loop is left with label `k`. */
  ghost predicate LeavesLoop(c: Config, labels: seq<Label>, k: nat) {
    c.launches && k < |labels| && InLoop(Run(c, labels[..k]).pc) && !InLoop(Run(c, labels[..k + 1]).pc)
  }

  /** ... by a collector still running, without a request or a timeout. */
  ghost predicate SelfEnded(c: Config, labels: seq<Label>, k: nat) {
    && LeavesLoop(c, labels, k)
    && Undisturbed(Run(c, labels[..k + 1]))
  }

  /** The clean-up for a workload that ran for `d` is under way or has come to its conclusion. */
  predicate Concerns(s: State, d: real) {
    if CleaningUp(s.pc) then s.pc.duration == d && s.conclusion.None?
    else !InLoop(s.pc) && !s.pc.LaunchingWorkload? && s.conclusion.Some? && s.conclusion.value.duration == d
  }

  /** No clean-up has begun. */
  predicate NotYet(c: Config, s: State) {
    && !CleaningUp(s.pc) && s.conclusion.None?
    && (s.pc.Polling? || s.pc.InterruptingWorkload? ==> c.launches)
  }

  lemma ConcludeConcerns(c: Config, s: State, a: Answer, d: real, rows: Option<nat>, killed: bool)
    ensures Concerns(Conclude(c, s, a, d, rows, killed), d)
    ensures Conclude(c, s, a, d, rows, killed).conclusion.value.rows == rows
  {
  }

  lemma RunStepConcerns(c: Config, s: State, a: Answer, d: real)
    requires RunEnabled(s) && Concerns(s, d)
    ensures Concerns(StepRun(c, s, a), d)
  {
    match s.pc
    case Stopping(e, call, before) =>
      ConcludeConcerns(c, s, a, e, before, s.calls[call].Answered? && s.calls[call].killed);
    case InspectingAgain(e, killed) => ConcludeConcerns(c, s, a, e, a.rows, killed);
    case _ =>
  }

  lemma StepConcerns(c: Config, s: State, l: Label, d: real)
    requires Enabled(s, l) && Concerns(s, d)
    ensures Concerns(Apply(c, s, l), d)
  {
    match l
    case RunStep(a) => RunStepConcerns(c, s, a, d);
    case _ => OthersLeaveRun(c, s, l);
  }

  /** Only `run` moves its own position and reaches a conclusion. */
  lemma OthersLeaveRun(c: Config, s: State, l: Label)
    requires Enabled(s, l) && !l.RunStep?
    ensures Apply(c, s, l).pc == s.pc && Apply(c, s, l).conclusion == s.conclusion
  {
  }

  predicate Undisturbed(s: State) {
    !s.userStopped && !s.timedOut && !s.finished
  }

  /** Behind the loop the clean-up begins exactly if nobody asked for an end and the collector
      is still running. */
  lemma LoopLeft(c: Config, s: State, a: Answer)
    requires NotYet(c, s)
    ensures var t := AfterLoop(s, a);
            !InLoop(t.pc) && if Undisturbed(t) then Concerns(t, a.duration) else NotYet(c, t)
  {
  }

  lemma Polled(c: Config, s: State, a: Answer)
    requires NotYet(c, s) && c.launches
    ensures var t := Poll(s, a);
            if !InLoop(t.pc) && Undisturbed(t) then Concerns(t, a.duration) else NotYet(c, t)
  {
    LoopLeft(c, s, a);
  }

  lemma StartLeaves(c: Config, s: State, a: Answer)
    requires NotYet(c, s) && s.pc.StartingCollector?
    ensures var t := Started(c, s, a);
            if c.launches && !InLoop(t.pc) && Undisturbed(t) then Concerns(t, a.duration) else NotYet(c, t)
  {
    if c.launches {
      Polled(c, StartAnswered(s, a), a);
    }
  }

  /** A step from the loop ends in the loop, in the clean-up or past it. */
  lemma RunStepLeaves(c: Config, s: State, a: Answer)
    requires RunEnabled(s) && NotYet(c, s)
    ensures var t := StepRun(c, s, a);
            if c.launches && InLoop(s.pc) && !InLoop(t.pc) && Undisturbed(t)
            then Concerns(t, a.duration) else NotYet(c, t)
  {
    match s.pc
    case StartingCollector => StartLeaves(c, s, a);
    case Polling => Polled(c, s, a);
    case InterruptingWorkload(deadline) => LoopLeft(c, s.(timedOut := s.timedOut || deadline), a);
    case _ =>
  }

  /** What one label makes of a run that has not begun to clean up. */
  lemma LabelLeaves(c: Config, labels: seq<Label>, k: nat)
    requires k < |labels| && NotYet(c, Run(c, labels[..k]))
    ensures SelfEnded(c, labels, k) ==>
              labels[k].RunStep? && Concerns(Run(c, labels[..k + 1]), labels[k].answer.duration)
    ensures !SelfEnded(c, labels, k) ==> NotYet(c, Run(c, labels[..k + 1]))
  {
    var s, l := Run(c, labels[..k]), labels[k];
    OneFurther(c, labels, k);
    if Enabled(s, l) {
      if l.RunStep? {
        RunStepLeaves(c, s, l.answer);
      } else {
        OthersLeaveRun(c, s, l);
      }
    }
  }

  lemma LabelConcerns(c: Config, labels: seq<Label>, n: nat, d: real)
    requires n < |labels| && Concerns(Run(c, labels[..n]), d)
    ensures Concerns(Run(c, labels[..n + 1]), d)
  {
    OneFurther(c, labels, n);
    if Enabled(Run(c, labels[..n]), labels[n]) {
      StepConcerns(c, Run(c, labels[..n]), labels[n], d);
    }
  }

  /** Label `k` ended the loop by a self-ended workload, and `n` labels in, its duration is what
      the clean-up is about. */
  ghost predicate BegunAt(c: Config, labels: seq<Label>, k: nat, n: nat)
    requires n <= |labels|
  {
    k < n && SelfEnded(c, labels, k) && labels[k].RunStep? && Concerns(Run(c, labels[..n]), labels[k].answer.duration)
  }

  /** At any time the clean-up has not begun, or a self-ended workload began it. */
  lemma {:induction false} Phases(c: Config, labels: seq<Label>, n: nat)
    requires n <= |labels|
    ensures NotYet(c, Run(c, labels[..n])) || exists k: nat :: BegunAt(c, labels, k, n)
  {
    if n > 0 {
      Phases(c, labels, n - 1);
      if NotYet(c, Run(c, labels[..n - 1])) {
        LabelLeaves(c, labels, n - 1);
        assert SelfEnded(c, labels, n - 1) ==> BegunAt(c, labels, n - 1, n);
      } else {
        var k: nat :| BegunAt(c, labels, k, n - 1);
        LabelConcerns(c, labels, n - 1, labels[k].answer.duration);
        assert BegunAt(c, labels, k, n);
      }
    }
  }

  /** A run in its loop has not begun to clean up. */
  lemma LoopIsBefore(c: Config, labels: seq<Label>, k: nat)
    requires k <= |labels| && InLoop(Run(c, labels[..k]).pc)
    ensures NotYet(c, Run(c, labels[..k]))
  {
    Phases(c, labels, k);
  }

  lemma BeginsHere(c: Config, labels: seq<Label>, k: nat)
    requires SelfEnded(c, labels, k)
    ensures BegunAt(c, labels, k, k + 1)
  {
    LoopIsBefore(c, labels, k);
    LabelLeaves(c, labels, k);
  }

  lemma {:induction false} BegunStays(c: Config, labels: seq<Label>, k: nat, n: nat)
    requires k < n <= |labels| && SelfEnded(c, labels, k)
    ensures BegunAt(c, labels, k, n)
  {
    if n == k + 1 {
      BeginsHere(c, labels, k);
    } else {
      BegunStays(c, labels, k, n - 1);
      LabelConcerns(c, labels, n - 1, labels[k].answer.duration);
    }
  }

  /** Some step of `run` was answered with these rows. */
  ghost predicate Counted(labels: seq<Label>, n: nat, rows: Option<nat>)
    requires n <= |labels|
  {
    exists m: nat :: m < n && labels[m].RunStep? && labels[m].answer.rows == rows
  }

  /** All rows a state holds were counted. */
  ghost predicate RowsCounted(labels: seq<Label>, n: nat, s: State)
    requires n <= |labels|
  {
    && (s.pc.Stopping? ==> Counted(labels, n, s.pc.before))
    && (s.conclusion.Some? ==> Counted(labels, n, s.conclusion.value.rows))
  }

  lemma LoopHoldsNoRows(s: State, a: Answer)
    ensures !Poll(s, a).pc.Stopping? && Poll(s, a).conclusion == s.conclusion
    ensures !AfterLoop(s, a).pc.Stopping? && AfterLoop(s, a).conclusion == s.conclusion
    ensures !EnterWait(s).pc.Stopping? && EnterWait(s).conclusion == s.conclusion
  {
  }

  lemma LoopRows(c: Config, s: State, a: Answer)
    requires RunEnabled(s) && !CleaningUp(s.pc)
    ensures !StepRun(c, s, a).pc.Stopping? && StepRun(c, s, a).conclusion == s.conclusion
  {
    match s.pc
    case StartingCollector => LoopHoldsNoRows(StartAnswered(s, a), a);
    case InterruptingWorkload(deadline) => LoopHoldsNoRows(s.(timedOut := s.timedOut || deadline), a);
    case LaunchingWorkload =>
    case _ => LoopHoldsNoRows(s, a);
  }

  lemma ConcludeRows(c: Config, s: State, a: Answer, d: real, rows: Option<nat>, killed: bool)
    ensures var t := Conclude(c, s, a, d, rows, killed);
            !t.pc.Stopping? && t.conclusion.Some? && t.conclusion.value.rows == rows
  {
  }

  /** New rows are those of the answer, or those counted before the stop. */
  lemma CleanUpRows(c: Config, s: State, a: Answer)
    requires RunEnabled(s) && CleaningUp(s.pc)
    ensures var t := StepRun(c, s, a);
            && (t.pc.Stopping? ==> t.pc.before == a.rows)
            && (t.conclusion.Some? ==> t.conclusion == s.conclusion || t.conclusion.value.rows == a.rows
                                       || (s.pc.Stopping? && t.conclusion.value.rows == s.pc.before))
  {
    match s.pc
    case Stopping(d, call, before) =>
      ConcludeRows(c, s, a, d, before, s.calls[call].Answered? && s.calls[call].killed);
    case InspectingAgain(d, killed) => ConcludeRows(c, s, a, d, a.rows, killed);
    case _ =>
  }

  lemma CountedGrows(labels: seq<Label>, n: nat, s: State)
    requires n < |labels| && RowsCounted(labels, n, s)
    ensures RowsCounted(labels, n + 1, s)
  {
  }

  lemma {:induction false} RunRows(c: Config, labels: seq<Label>, n: nat)
    requires n <= |labels|
    ensures RowsCounted(labels, n, Run(c, labels[..n]))
  {
    if n > 0 {
      var s, l := Run(c, labels[..n - 1]), labels[n - 1];
      RunRows(c, labels, n - 1);
      CountedGrows(labels, n - 1, s);
      OneFurther(c, labels, n - 1);
      if Enabled(s, l) {
        if l.RunStep? {
          if CleaningUp(s.pc) {
            CleanUpRows(c, s, l.answer);
          } else {
            LoopRows(c, s, l.answer);
          }
          assert Counted(labels, n, l.answer.rows);
        } else {
          OthersLeaveRun(c, s, l);
        }
      }
    }
  }

  /** A run that has come to its output went through the clean-up for a self-ended workload if
      and only if the collector outlived the polling loop without a request or a timeout; and
      the clean-up was about that workload's duration. */
  lemma SelfEndedConcludes(c: Config, labels: seq<Label>)
    requires Run(c, labels).pc.Done?
    ensures Run(c, labels).conclusion.Some? <==> exists k: nat :: SelfEnded(c, labels, k)
    ensures forall k: nat :: SelfEnded(c, labels, k) ==>
              labels[k].RunStep? && Run(c, labels).conclusion.value.duration == labels[k].answer.duration
  {
    assert labels[..|labels|] == labels;
    Phases(c, labels, |labels|);
    forall k: nat | SelfEnded(c, labels, k) ensures BegunAt(c, labels, k, |labels|) {
      BegunStays(c, labels, k, |labels|);
    }
  }

  /** If the flags are clear at the end of a run, they were when it left its loop. */
  lemma UndisturbedSelfEnds(c: Config, labels: seq<Label>, k: nat)
    requires LeavesLoop(c, labels, k) && !Run(c, labels).userStopped && !Run(c, labels).timedOut
    ensures SelfEnded(c, labels, k) <==> !Run(c, labels[..k + 1]).finished
  {
    EndIsLater(c, labels, k + 1);
  }

  lemma EndIsLater(c: Config, labels: seq<Label>, k: nat)
    requires k <= |labels|
    ensures Later(Run(c, labels[..k]), Run(c, labels))
  {
    assert labels[..|labels|] == labels;
    RunMovesOn(c, labels, k, |labels|);
  }

  /** The loop is not entered again. */
  lemma LeftBefore(c: Config, labels: seq<Label>, j: nat, k: nat)
    requires SelfEnded(c, labels, j) && LeavesLoop(c, labels, k)
    ensures k <= j
  {
    if j < k {
      BegunStays(c, labels, j, k);
    }
  }

  lemma OutlivedIfSelfEnded(c: Config, labels: seq<Label>, j: nat, k: nat)
    requires SelfEnded(c, labels, j) && LeavesLoop(c, labels, k)
    ensures !Run(c, labels[..k + 1]).finished
  {
    LeftBefore(c, labels, j, k);
    RunMovesOn(c, labels, k + 1, j + 1);
  }

  /** A run that launched a workload and came to its output, never stopped, cancelled or timed
      out, has concluded on its samples if and only if the collector outlived the loop. */
  lemma OutlivedLoopConcludes(c: Config, labels: seq<Label>, k: nat)
    requires LeavesLoop(c, labels, k) && Run(c, labels).pc.Done?
    requires !Run(c, labels).userStopped && !Run(c, labels).timedOut
    ensures Run(c, labels).conclusion.Some? <==> !Run(c, labels[..k + 1]).finished
  {
    SelfEndedConcludes(c, labels);
    UndisturbedSelfEnds(c, labels, k);
    forall j: nat | SelfEnded(c, labels, j) ensures !Run(c, labels[..k + 1]).finished {
      OutlivedIfSelfEnded(c, labels, j, k);
    }
  }

  /** Behind a workload that ended on its own, an output means that two complete rows were
      counted and that the workload ran long enough for two samples. */
  lemma OutputNeedsSamples(c: Config, labels: seq<Label>, k: nat)
    requires SelfEnded(c, labels, k) && Emitted in Run(c, labels).log
    ensures labels[k].RunStep? && HoldsEnough(c.interval, labels[k].answer.duration, MinimumSamples)
    ensures exists m: nat :: m < |labels| && labels[m].RunStep? && labels[m].answer.rows.Some?
                             && labels[m].answer.rows.value >= MinimumSamples
  {
    OutputIsBacked(c, labels);
    SelfEndedConcludes(c, labels);
    RunRows(c, labels, |labels|);
    assert labels[..|labels|] == labels;
    var rows := Run(c, labels).conclusion.value.rows;
    var m: nat :| m < |labels| && labels[m].RunStep? && labels[m].answer.rows == rows;
    assert labels[m].answer.rows.Some?;
  }

  // ---- requests that are lost ----

  /** Label `k` is a stop or a cancel callback. */
  ghost predicate Requests(c: Config, labels: seq<Label>, k: nat) {
    k < |labels| && (labels[k].OnStop? || (labels[k].OnCancel? && Enabled(Run(c, labels[..k]), labels[k])))
  }

  /** All requests among the first `n` labels came before the handle was registered. */
  ghost predicate AllEarly(c: Config, labels: seq<Label>, n: nat)
    requires n <= |labels|
  {
    forall k: nat :: k < n && Requests(c, labels, k) ==> !Run(c, labels[..k]).handle
  }

  predicate NothingSent(log: seq<Event>) {
    StopInterrupt !in log && StopKill !in log && CancelKill !in log
  }

  /** Nothing was sent to the collector, and the run is not about to. */
  predicate Untouched(s: State) {
    s.attempt == NoAttempt && NothingSent(s.log) && !CleaningUp(s.pc)
  }

  /** As long as there is no handle, or behind a request that came before it, the collector is
      left alone. */
  predicate LeftAlone(s: State) {
    && (!s.handle || s.userStopped ==> Untouched(s))
    && (!s.handle ==> s.finished || s.pc.LaunchingWorkload? || s.pc.StartingCollector? || s.pc.Threw?)
  }

  lemma LoopLeavesAlone(s: State, a: Answer)
    requires LeftAlone(s) && (!s.handle ==> s.finished)
    ensures LeftAlone(Poll(s, a)) && LeftAlone(AfterLoop(s, a)) && LeftAlone(EnterWait(s))
  {
  }

  lemma RunStepLeavesAlone(c: Config, s: State, a: Answer)
    requires LeftAlone(s) && RunEnabled(s)
    ensures LeftAlone(StepRun(c, s, a))
  {
    match s.pc
    case LaunchingWorkload =>
    case StartingCollector => LoopLeavesAlone(StartAnswered(s, a), a);
    case Polling => LoopLeavesAlone(s, a);
    case InterruptingWorkload(deadline) => LoopLeavesAlone(s.(timedOut := s.timedOut || deadline), a);
    case WaitingEnd => LoopLeavesAlone(s, a);
    case _ =>
      assert s.handle && !s.userStopped;
      RunStepKeepsFlags(c, s, a);
  }

  lemma RunStepKeepsFlags(c: Config, s: State, a: Answer)
    requires RunEnabled(s) && CleaningUp(s.pc)
    ensures StepRun(c, s, a).handle == s.handle && StepRun(c, s, a).userStopped == s.userStopped
  {
  }

  lemma StepLeavesAlone(c: Config, s: State, l: Label)
    requires LeftAlone(s) && Enabled(s, l)
    requires l.OnStop? || l.OnCancel? ==> !s.handle
    ensures LeftAlone(Apply(c, s, l))
  {
    match l
    case RunStep(a) => RunStepLeavesAlone(c, s, a);
    case _ =>
  }

  lemma {:induction false} EarlyLeavesAlone(c: Config, labels: seq<Label>, n: nat)
    requires n <= |labels| && AllEarly(c, labels, n)
    ensures LeftAlone(Run(c, labels[..n]))
  {
    if n > 0 {
      var s, l := Run(c, labels[..n - 1]), labels[n - 1];
      EarlyLeavesAlone(c, labels, n - 1);
      OneFurther(c, labels, n - 1);
      if Enabled(s, l) {
        assert l.OnStop? || l.OnCancel? ==> Requests(c, labels, n - 1);
        StepLeavesAlone(c, s, l);
      }
    }
  }

  /** A request that finds the handle of a running collector is sent on. */
  lemma LateRequestIsSent(c: Config, labels: seq<Label>, k: nat)
    requires Requests(c, labels, k) && Run(c, labels[..k]).handle && !Run(c, labels[..k]).finished
    ensures !NothingSent(Run(c, labels[..k + 1]).log)
  {
    OneFurther(c, labels, k);
    if labels[k].OnStop? {
      StopReachesCollector(c, labels[..k]);
      RunGrows(c, labels[..k], OnStop);
    }
  }

  /** In any run: a collector that is running although an end was requested has been sent
      nothing if and only if all requests came before its handle was registered. */
  lemma RequestsAreLostExactly(c: Config, labels: seq<Label>)
    requires Run(c, labels).userStopped && Run(c, labels).handle && !Run(c, labels).finished
    ensures NothingSent(Run(c, labels).log) <==> AllEarly(c, labels, |labels|)
  {
    assert labels[..|labels|] == labels;
    if AllEarly(c, labels, |labels|) {
      EarlyLeavesAlone(c, labels, |labels|);
    } else {
      var k: nat :| k < |labels| && Requests(c, labels, k) && Run(c, labels[..k]).handle;
      RunMovesOn(c, labels, k, |labels|);
      LateRequestIsSent(c, labels, k);
      RunMovesOn(c, labels, k + 1, |labels|);
    }
  }
}
