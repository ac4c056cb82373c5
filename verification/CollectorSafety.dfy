/** What every interleaving of the collector's `run` with its callbacks keeps. */
module CollectorSafety {
  import opened Wrappers
  import opened Sampling
  import opened Collector

  // ---- the shared stop attempt ----

  /** How far a log has followed the stop protocol: one interrupt, then the end of the grace
      period, then one kill, and no kill behind the collector's end. */
  datatype Progress = Broken | Progress(interrupted: bool, expired: bool, killed: bool, finished: bool)

  function Next(p: Progress, e: Event): Progress {
    if p.Broken? then Broken
    else
      match e
      case StopInterrupt => if p.interrupted then Broken else p.(interrupted := true)
      case GraceOver => if !p.interrupted || p.expired then Broken else p.(expired := true)
      case StopKill => if !p.expired || p.killed || p.finished then Broken else p.(killed := true)
      case Finished => if p.finished then Broken else p.(finished := true)
      case _ => p
  }

  function Follow(log: seq<Event>): Progress {
    if log == [] then Progress(false, false, false, false)
    else Next(Follow(log[..|log| - 1]), log[|log| - 1])
  }

  lemma FollowOn(log: seq<Event>, e: Event)
    ensures Follow(log + [e]) == Next(Follow(log), e)
  {
    assert (log + [e])[..|log|] == log;
  }

  /** The log of the attempt, by how far it has come. */
  ghost predicate AttemptLog(s: State) {
    var p := Follow(s.log);
    && p.Progress? && (p.finished ==> s.finished)
    && match s.attempt
       case NoAttempt => !p.interrupted && !p.expired && !p.killed
       case Interrupting => p.interrupted && !p.expired && !p.killed
       case Racing => p.interrupted && !p.expired && !p.killed
       case Killing => p.interrupted && p.expired && p.killed
       case AwaitingEnd => p.interrupted && p.expired && p.killed
       case Resolved(killed) => p.interrupted && p.killed == killed && (killed ==> p.expired)
  }

  /** Whoever joined the attempt is answered with its one result. */
  ghost predicate OneAnswer(s: State) {
    forall i :: 0 <= i < |s.calls| ==>
      && (s.calls[i].Answered? ==> s.attempt == Resolved(s.calls[i].killed))
      && (s.calls[i].Joined? ==> s.attempt != NoAttempt)
  }

  ghost predicate StopInv(s: State) {
    AttemptLog(s) && OneAnswer(s)
  }

  lemma SameStop(s: State, t: State)
    requires StopInv(s)
    requires t.attempt == s.attempt && t.calls == s.calls && t.log == s.log && (s.finished ==> t.finished)
    ensures StopInv(t)
  {
  }

  lemma NoStopEvent(s: State, t: State, e: Event)
    requires StopInv(s) && e in {CancelKill, Emitted}
    requires t.attempt == s.attempt && t.calls == s.calls && t.log == s.log + [e] && t.finished == s.finished
    ensures StopInv(t)
  {
    FollowOn(s.log, e);
  }

  lemma AnswersGrow(s: State, t: State, x: Call)
    requires OneAnswer(s) && t.calls == s.calls + [x]
    requires t.attempt == s.attempt || (s.attempt == NoAttempt && t.attempt == Interrupting)
    requires !x.Answered? && (x.Joined? ==> t.attempt != NoAttempt)
    ensures OneAnswer(t)
  {
  }

  lemma RequestKeeps(s: State)
    requires StopInv(s)
    ensures StopInv(RequestStop(s))
  {
    var t := RequestStop(s);
    AnswersGrow(s, t, t.calls[|s.calls|]);
    FollowOn(s.log, StopInterrupt);
  }

  lemma GraceKeeps(s: State, o: Outcome)
    requires StopInv(s) && s.attempt.Racing? && AttemptEnabled(s, o)
    ensures StopInv(GraceStep(s, o))
  {
    FollowOn(s.log, GraceOver);
    FollowOn(s.log, StopKill);
    FollowOn(s.log + [GraceOver], StopKill);
  }

  /** What the stop invariant reads of a state that `run` has moved on. */
  predicate RunsOn(s: State, t: State) {
    && t.attempt == s.attempt && t.calls == s.calls && t.finished == s.finished
    && (t.log == s.log || t.log == s.log + [Emitted])
  }

  lemma RunsOnKeeps(s: State, t: State)
    requires StopInv(s) && RunsOn(s, t)
    ensures StopInv(t)
  {
    if t.log == s.log {
      SameStop(s, t);
    } else {
      NoStopEvent(s, t, Emitted);
    }
  }

  lemma ConcludeRunsOn(c: Config, s: State, a: Answer, d: real, rows: Option<nat>, killed: bool)
    ensures RunsOn(s, Conclude(c, s, a, d, rows, killed))
  {
  }

  lemma PollRunsOn(s: State, a: Answer)
    ensures RunsOn(s, Poll(s, a)) && RunsOn(s, AfterLoop(s, a)) && RunsOn(s, EnterWait(s))
  {
  }

  lemma StartKeeps(c: Config, s: State, a: Answer)
    requires StopInv(s)
    ensures StopInv(Started(c, s, a))
  {
    var t := if a.ok then s.(handle := true) else s.(finished := true, error := Some(RunFailed));
    SameStop(s, t);
    PollRunsOn(t, a);
    RunsOnKeeps(t, Started(c, s, a));
  }

  lemma RunKeeps(c: Config, s: State, a: Answer)
    requires StopInv(s) && RunEnabled(s)
    ensures StopInv(StepRun(c, s, a))
  {
    var t := StepRun(c, s, a);
    match s.pc
    case StartingCollector => StartKeeps(c, s, a);
    case Inspecting(d) =>
      RequestKeeps(s);
      SameStop(RequestStop(s), t);
    case Stopping(d, call, before) =>
      ConcludeRunsOn(c, s, a, d, before, s.calls[call].Answered? && s.calls[call].killed);
      RunsOnKeeps(s, t);
    case InspectingAgain(d, killed) =>
      ConcludeRunsOn(c, s, a, d, a.rows, killed);
      RunsOnKeeps(s, t);
    case InterruptingWorkload(deadline) =>
      PollRunsOn(s.(timedOut := s.timedOut || deadline), a);
      RunsOnKeeps(s, t);
    case _ =>
      PollRunsOn(s, a);
      RunsOnKeeps(s, t);
  }

  lemma EndKeeps(s: State, e: Option<CollectorError>)
    requires StopInv(s) && s.handle && !s.finished
    ensures StopInv(Emit(s, Finished).(finished := true, error := if e.Some? then e else s.error))
  {
    FollowOn(s.log, Finished);
  }

  lemma AttemptKeeps(s: State, o: Outcome)
    requires StopInv(s) && AttemptEnabled(s, o)
    ensures StopInv(StepAttempt(s, o))
  {
    if s.attempt.Racing? {
      GraceKeeps(s, o);
    }
  }

  lemma WakeKeeps(s: State, i: nat)
    requires StopInv(s) && i < |s.calls| && s.calls[i] == Joined && s.attempt.Resolved?
    ensures StopInv(s.(calls := s.calls[i := Answered(s.attempt.killed)]))
  {
  }

  lemma CancelKeeps(s: State, kills: bool)
    requires StopInv(s)
    ensures StopInv((if kills then Emit(s, CancelKill) else s).(userStopped := true))
  {
    if kills {
      NoStopEvent(s, Emit(s, CancelKill).(userStopped := true), CancelKill);
    }
  }

  lemma StopKeeps(s: State)
    requires StopInv(s)
    ensures StopInv(RequestStop(s.(userStopped := true)))
  {
    SameStop(s, s.(userStopped := true));
    RequestKeeps(s.(userStopped := true));
  }

  lemma StepKeeps(c: Config, s: State, l: Label)
    requires StopInv(s) && Enabled(s, l)
    ensures StopInv(Apply(c, s, l))
  {
    match l
    case RunStep(a) => RunKeeps(c, s, a);
    case AttemptStep(o) => AttemptKeeps(s, o);
    case Wake(i) => WakeKeeps(s, i);
    case CollectorEnds(e) => EndKeeps(s, e);
    case OnStop => StopKeeps(s);
    case OnCancel(kills) => CancelKeeps(s, kills);
  }

  lemma {:induction false} ReachableStop(c: Config, labels: seq<Label>)
    ensures StopInv(Run(c, labels))
  {
    if labels != [] {
      var n := |labels| - 1;
      ReachableStop(c, labels[..n]);
      if Enabled(Run(c, labels[..n]), labels[n]) {
        StepKeeps(c, Run(c, labels[..n]), labels[n]);
      }
    }
  }

  // ---- what the log means ----

  /** The stop path interrupts at most once; it kills at most once, and only a collector that
      was interrupted before and is unfinished at the end of the grace period. */
  ghost predicate OrderlyStop(log: seq<Event>) {
    forall k :: 0 <= k < |log| ==> Orderly(log[..k], log[k])
  }

  predicate Orderly(before: seq<Event>, e: Event) {
    && (e == StopInterrupt ==> StopInterrupt !in before)
    && (e == StopKill ==> StopInterrupt in before && GraceOver in before && Finished !in before && StopKill !in before)
  }

  /** The flags of the protocol say which events have happened. */
  ghost predicate FlagsMean(log: seq<Event>, p: Progress)
    requires p.Progress?
  {
    && (p.interrupted <==> StopInterrupt in log) && (p.expired <==> GraceOver in log)
    && (p.killed <==> StopKill in log) && (p.finished <==> Finished in log)
  }

  lemma FlagsGrow(before: seq<Event>, e: Event)
    requires Follow(before).Progress? && FlagsMean(before, Follow(before)) && Next(Follow(before), e).Progress?
    ensures FlagsMean(before + [e], Next(Follow(before), e)) && Orderly(before, e)
  {
    assert forall x :: x in before + [e] <==> x in before || x == e;
  }

  lemma OrderlyGrows(before: seq<Event>, e: Event)
    requires OrderlyStop(before) && Orderly(before, e)
    ensures OrderlyStop(before + [e])
  {
    var log := before + [e];
    forall k | 0 <= k < |log| ensures Orderly(log[..k], log[k]) {
      var n := if k < |before| then k else |before|;
      assert log[..n] == before[..n];
      assert k == |before| ==> log[..k] == before;
      assert k < |before| ==> Orderly(before[..k], before[k]);
    }
  }

  lemma {:induction false} FollowCounts(log: seq<Event>)
    requires Follow(log).Progress?
    ensures FlagsMean(log, Follow(log)) && OrderlyStop(log)
  {
    if log != [] {
      var before, e := log[..|log| - 1], log[|log| - 1];
      FollowCounts(before);
      FlagsGrow(before, e);
      OrderlyGrows(before, e);
      assert log == before + [e];
    }
  }

  /** However many stops overlap, on every interleaving. */
  lemma StopIsSingleFlight(c: Config, labels: seq<Label>)
    ensures OrderlyStop(Run(c, labels).log)
  {
    ReachableStop(c, labels);
    FollowCounts(Run(c, labels).log);
  }

  /** All callers that shared the attempt get the same answer, and it is true exactly when the
      attempt killed the collector. */
  lemma CallersAgree(c: Config, labels: seq<Label>, i: nat)
    requires i < |Run(c, labels).calls| && Run(c, labels).calls[i].Answered?
    ensures Run(c, labels).calls[i].killed <==> StopKill in Run(c, labels).log
    ensures forall j :: 0 <= j < |Run(c, labels).calls| && Run(c, labels).calls[j].Answered? ==>
              Run(c, labels).calls[j] == Run(c, labels).calls[i]
  {
    ReachableStop(c, labels);
    FollowCounts(Run(c, labels).log);
  }

  // ---- the output ----

  /** What the output after a workload's own end rests on. */
  predicate Acceptable(c: Config, k: Conclusion) {
    && k.rows.Some? && k.rows.value >= MinimumSamples
    && HoldsEnough(c.interval, k.duration, MinimumSamples)
    && (k.killed || k.error.None?)
  }

  /** The clean-up after a workload's own end finds no error if and only if the samples are
      acceptable: a failure of the collector is forgiven only when the attempt killed it. */
  lemma ConclusionIsExact(c: Config, s: State, a: Answer, d: real, rows: Option<nat>, killed: bool)
    ensures var t := Conclude(c, s, a, d, rows, killed);
            t.conclusion == Some(Conclusion(d, rows, s.error, killed))
            && (t.error.None? <==> Acceptable(c, t.conclusion.value))
  {
    Accepted(c.interval, d, MinimumSamples, rows, s.error, killed);
  }

  /** A workload whose run took no time at all is never enough for the collector, whatever was
      counted: its intervals are far above the tolerance. */
  lemma ZeroDurationIsNotEnough(c: Config, s: State, a: Answer, rows: Option<nat>, killed: bool)
    ensures Conclude(c, s, a, 0.0, rows, killed).error.Some?
  {
    ZeroDurationRefused(c.interval, MinimumSamples, rows, s.error, killed);
  }

  ghost predicate Backed(c: Config, s: State) {
    && (s.conclusion.Some? && s.error.None? ==> Acceptable(c, s.conclusion.value))
    && (s.pc.Done? ==> s.finished && s.error.None?)
    && (Emitted in s.log ==> s.pc.Done?)
  }

  /** A step that is not a conclusion: an error stays, and an output needs an ended collector
      without an error. */
  predicate Plain(s: State, t: State) {
    && t.conclusion == s.conclusion && (s.error.Some? ==> t.error.Some?)
    && (t.log == s.log || exists e :: t.log == s.log + [e] && (e == Emitted ==> t.pc.Done?))
    && (t.pc.Done? ==> t.finished && t.error.None?)
    && (s.pc.Done? ==> t.pc.Done?)
  }

  lemma PlainKeeps(c: Config, s: State, t: State)
    requires Backed(c, s) && Plain(s, t)
    ensures Backed(c, t)
  {
    if t.log != s.log {
      var e :| t.log == s.log + [e] && (e == Emitted ==> t.pc.Done?);
      assert Emitted in t.log ==> Emitted in s.log || e == Emitted;
    }
  }

  lemma WaitIsPlain(s: State)
    requires !s.pc.Done?
    ensures Plain(s, EnterWait(s))
  {
    assert EnterWait(s).log == s.log || EnterWait(s).log == s.log + [Emitted];
  }

  lemma LoopIsPlain(s: State, a: Answer)
    requires !s.pc.Done?
    ensures Plain(s, AfterLoop(s, a)) && Plain(s, Poll(s, a)) && Plain(s, CheckWorkload(s, a))
  {
    WaitIsPlain(s);
  }

  lemma RequestIsPlain(s: State)
    requires s.pc.Done? ==> s.finished && s.error.None?
    ensures Plain(s, RequestStop(s))
  {
    assert RequestStop(s).log == s.log || RequestStop(s).log == s.log + [StopInterrupt];
  }

  lemma StartedIsPlain(c: Config, s: State, a: Answer)
    requires !s.pc.Done?
    ensures Plain(s, Started(c, s, a))
  {
    var t := if a.ok then s.(handle := true) else s.(finished := true, error := Some(RunFailed));
    LoopIsPlain(t, a);
    WaitIsPlain(t);
  }

  lemma ConcludeKeeps(c: Config, s: State, a: Answer, d: real, rows: Option<nat>, killed: bool)
    requires Backed(c, s) && !s.pc.Done?
    ensures Backed(c, Conclude(c, s, a, d, rows, killed))
  {
    ConclusionIsExact(c, s, a, d, rows, killed);
    var error := Resolve(c.interval, d, MinimumSamples, Eligible(rows, c.interval, d), s.error, killed);
    var t := s.(conclusion := Some(Conclusion(d, rows, s.error, killed)), error := error);
    LoopIsPlain(t, a);
    PlainKeeps(c, t, CheckWorkload(t, a));
  }

  lemma RunBacked(c: Config, s: State, a: Answer)
    requires Backed(c, s) && RunEnabled(s)
    ensures Backed(c, StepRun(c, s, a))
  {
    var t := StepRun(c, s, a);
    match s.pc
    case StartingCollector => StartedIsPlain(c, s, a); PlainKeeps(c, s, t);
    case Inspecting(_) => RequestIsPlain(s); PlainKeeps(c, s, RequestStop(s)); PlainKeeps(c, RequestStop(s), t);
    case Stopping(d, call, before) =>
      ConcludeKeeps(c, s, a, d, before, s.calls[call].Answered? && s.calls[call].killed);
    case InspectingAgain(d, killed) => ConcludeKeeps(c, s, a, d, a.rows, killed);
    case InterruptingWorkload(deadline) => InterruptedBacked(c, s, a);
    case Polling => LoopIsPlain(s, a); PlainKeeps(c, s, t);
    case WaitingEnd => WaitIsPlain(s); PlainKeeps(c, s, t);
    case LaunchingWorkload => PlainKeeps(c, s, t);
  }

  lemma InterruptedBacked(c: Config, s: State, a: Answer)
    requires Backed(c, s) && s.pc.InterruptingWorkload?
    ensures Backed(c, StepRun(c, s, a))
  {
    var u := s.(timedOut := s.timedOut || s.pc.deadline);
    LoopIsPlain(u, a);
    PlainKeeps(c, u, AfterLoop(u, a));
  }

  lemma AttemptIsPlain(s: State, o: Outcome)
    requires AttemptEnabled(s, o) && (s.pc.Done? ==> s.finished && s.error.None?)
    requires s.attempt.Racing? ==> !o.GraceEnds? || s.finished
    ensures Plain(s, StepAttempt(s, o))
  {
    assert StepAttempt(s, o).log == s.log || StepAttempt(s, o).log == s.log + [GraceOver];
  }

  lemma GraceBacked(c: Config, s: State)
    requires Backed(c, s) && s.attempt.Racing? && !s.finished
    ensures Backed(c, StepAttempt(s, GraceEnds))
  {
    var t := Emit(s, GraceOver);
    PlainKeeps(c, s, t);
    PlainKeeps(c, t, Emit(t, StopKill));
  }

  lemma StepBacked(c: Config, s: State, l: Label)
    requires Backed(c, s) && Enabled(s, l)
    ensures Backed(c, Apply(c, s, l))
  {
    var t := Apply(c, s, l);
    match l
    case RunStep(a) => RunBacked(c, s, a);
    case AttemptStep(o) =>
      if s.attempt.Racing? && o.GraceEnds? && !s.finished {
        GraceBacked(c, s);
      } else {
        AttemptIsPlain(s, o);
        PlainKeeps(c, s, t);
      }
    case Wake(_) => PlainKeeps(c, s, t);
    case CollectorEnds(_) =>
      assert t.log == s.log + [Finished];
      PlainKeeps(c, s, t);
    case OnStop => RequestIsPlain(s.(userStopped := true)); PlainKeeps(c, s, t);
    case OnCancel(kills) =>
      assert t.log == s.log || t.log == s.log + [CancelKill];
      PlainKeeps(c, s, t);
  }

  /** The output is emitted only by a run whose collector has ended without a standing error;
      and if the collector outlived a workload that ended on its own, only when at least two
      complete rows were counted in a window that holds two samples. */
  lemma {:induction false} OutputIsBacked(c: Config, labels: seq<Label>)
    ensures Backed(c, Run(c, labels))
  {
    if labels != [] {
      var n := |labels| - 1;
      OutputIsBacked(c, labels[..n]);
      if Enabled(Run(c, labels[..n]), labels[n]) {
        StepBacked(c, Run(c, labels[..n]), labels[n]);
      }
    }
  }

  // ---- requests that come too early ----

  /** Behind a stop callback the collector has been interrupted if and only if it was before,
      or its handle is there and it has not ended. */
  lemma StopReachesCollector(c: Config, labels: seq<Label>)
    ensures var s, t := Run(c, labels), Run(c, labels + [OnStop]);
            t.userStopped
            && (StopInterrupt in t.log <==> StopInterrupt in s.log || (s.handle && !s.finished))
  {
    ReachableStop(c, labels);
    FollowCounts(Run(c, labels).log);
    ReachableStop(c, labels + [OnStop]);
    FollowCounts(Run(c, labels + [OnStop]).log);
    RunGrows(c, labels, OnStop);
  }

  /** A stop that lands while the collector is being started is lost: the run goes on to wait
      for a collector that nobody has interrupted, and that can outlast any number of rounds. */
  lemma {:induction false} EarlyStopIsLost(c: Config, a: Answer, rounds: nat)
    requires a.ok && a.healthy
    ensures var s := Run(c, EarlyStop(a, rounds));
            && s.userStopped && s.handle && !s.finished && s.pc == WaitingEnd
            && s.attempt == NoAttempt && s.log == []
  {
    if rounds > 0 {
      EarlyStopIsLost(c, a, rounds - 1);
      RunGrows(c, EarlyStop(a, rounds - 1), RunStep(a));
    } else {
      var starting := Init().(pc := StartingCollector);
      RunGrows(c, [], RunStep(a));
      RunGrows(c, [RunStep(a)], OnStop);
      assert [RunStep(a)] + [OnStop] == [RunStep(a), OnStop];
      RunGrows(c, [RunStep(a), OnStop], RunStep(a));
      assert [RunStep(a), OnStop] + [RunStep(a)] == [RunStep(a), OnStop, RunStep(a)];
      assert Run(c, [RunStep(a), OnStop]) == starting.(userStopped := true, calls := [Immediate]);
    }
  }

  lemma RunGrows(c: Config, labels: seq<Label>, l: Label)
    ensures Run(c, labels + [l]) ==
              if Enabled(Run(c, labels), l) then Apply(c, Run(c, labels), l) else Run(c, labels)
  {
    assert (labels + [l])[..|labels|] == labels;
  }

  function EarlyStop(a: Answer, rounds: nat): seq<Label> {
    if rounds == 0 then [RunStep(a), OnStop, RunStep(a)] else EarlyStop(a, rounds - 1) + [RunStep(a)]
  }

  // ---- the tool itself ----

  /** Let the tool go through the steps of an interleaving, passing over those that cannot
      happen when their turn comes. Whatever is given, the stop path is orderly, and an output
      is backed. */
  method Replay(c: Config, labels: seq<Label>) returns (last: State)
    ensures last == Run(c, labels)
    ensures OrderlyStop(last.log)
    ensures Emitted in last.log ==>
              last.finished && last.error.None?
              && (last.conclusion.Some? ==> Acceptable(c, last.conclusion.value))
  {
    var tool := new CollectorTool(c);
    var i := 0;
    while i < |labels|
      invariant 0 <= i <= |labels| && tool.config == c && fresh(tool)
      invariant tool.View() == Run(c, labels[..i])
    {
      RunGrows(c, labels[..i], labels[i]);
      assert labels[..i + 1] == labels[..i] + [labels[i]];
      if Enabled(tool.View(), labels[i]) {
        tool.Perform(labels[i]);
      }
      i := i + 1;
    }
    assert labels[..i] == labels;
    last := tool.View();
    StopIsSingleFlight(c, labels);
    OutputIsBacked(c, labels);
  }
}
