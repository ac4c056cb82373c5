/** The system utilization collector: `run` waits for a workload and a collector process
    while any number of stop and cancel callbacks act on the same `ctx.metadata`. Stopping the
    collector is one shared attempt: interrupt, grace period, kill. A step is the code between
    two `await`s; what an awaited call answers is chosen by the environment. */
module Collector {
  import opened Wrappers
  import opened Sampling

  const MinimumSamples: nat := 2

  /** The shared stop attempt, by what it is awaiting. */
  datatype Attempt =
    | NoAttempt
    | Interrupting
    | Racing                    // the collector's end or the end of the grace period
    | Killing
    | AwaitingEnd
    | Resolved(killed: bool)

  /** An activation of `stopCollectorWithFallback`, numbered by their order. */
  datatype Call = Immediate | Joined | Answered(killed: bool)

  datatype Event =
    | StopInterrupt
    | GraceOver
    | StopKill
    | CancelKill
    | Finished
    | Emitted

  datatype RunPc =
    | LaunchingWorkload
    | StartingCollector
    | Polling
    | InterruptingWorkload(deadline: bool)
    | Inspecting(duration: real)
    | Stopping(duration: real, call: nat, before: Option<nat>)
    | InspectingAgain(duration: real, killed: bool)
    | WaitingEnd
    | Threw
    | Done

  /** What the clean-up after a workload's own end was decided on. */
  datatype Conclusion = Conclusion(duration: real, rows: Option<nat>, error: Option<CollectorError>, killed: bool)

  datatype State = State(
    handle: bool,               // the collector's handle is in the metadata
    finished: bool,
    error: Option<CollectorError>,
    userStopped: bool,
    timedOut: bool,
    attempt: Attempt,
    calls: seq<Call>,
    pc: RunPc,
    conclusion: Option<Conclusion>,
    log: seq<Event>
  )

  /** The sampling intervals that `parseInterval` lets pass, in seconds. */
  type Interval = x: real | 0.01 <= x <= 60.0 witness 1.0

  /** The sampling interval, and whether a workload is launched. */
  datatype Config = Config(interval: Interval, launches: bool)

  /** What `run` finds when it goes on: whether the awaited call succeeded, whether the
      workload has completed and how long it ran, whether the deadline has passed, the
      complete rows counted, and whether the workload's own failure is to be thrown. */
  datatype Answer = Answer(ok: bool, completed: bool, duration: real, deadline: bool, rows: Option<nat>, healthy: bool)

  datatype Outcome = Succeeds | Fails | GraceEnds

  datatype Label =
    | RunStep(answer: Answer)
    | AttemptStep(outcome: Outcome)
    | Wake(call: nat)
    | CollectorEnds(error: Option<CollectorError>)
    | OnStop
    | OnCancel(kills: bool)

  function Init(): State {
    State(false, false, None, false, false, NoAttempt, [], LaunchingWorkload, None, [])
  }

  function Emit(s: State, e: Event): State {
    s.(log := s.log + [e])
  }

  // ---- stopCollectorWithFallback ----

  function RequestStop(s: State): State {
    if !s.handle || s.finished then s.(calls := s.calls + [Immediate])
    else if s.attempt != NoAttempt then s.(calls := s.calls + [Joined])
    else Emit(s, StopInterrupt).(attempt := Interrupting, calls := s.calls + [Joined])
  }

  predicate AttemptEnabled(s: State, o: Outcome) {
    match s.attempt
    case NoAttempt => false
    case Interrupting => !o.GraceEnds?
    case Racing => o.GraceEnds? || (o.Succeeds? && s.finished)
    case Killing => !o.GraceEnds?
    case AwaitingEnd => o.Succeeds? && s.finished
    case Resolved(_) => false
  }

  function GraceStep(s: State, o: Outcome): State {
    var t := if o.GraceEnds? then Emit(s, GraceOver) else s;
    if s.finished then t.(attempt := Resolved(false)) else Emit(t, StopKill).(attempt := Killing)
  }

  function StepAttempt(s: State, o: Outcome): State
    requires AttemptEnabled(s, o)
  {
    if s.attempt.Interrupting? then s.(attempt := Racing)
    else if s.attempt.Racing? then GraceStep(s, o)
    else if s.attempt.Killing? && o.Succeeds? then s.(attempt := AwaitingEnd)
    else s.(attempt := Resolved(true))
  }

  // ---- run ----

  /** The final wait and what follows it. */
  function EnterWait(s: State): State {
    if !s.finished then s.(pc := WaitingEnd)
    else if s.error.Some? then s.(pc := Threw)
    else Emit(s, Emitted).(pc := Done)
  }

  function CheckWorkload(s: State, a: Answer): State {
    if a.healthy then EnterWait(s) else s.(pc := Threw)
  }

  /** Behind the polling loop. */
  function AfterLoop(s: State, a: Answer): State {
    if !s.userStopped && !s.timedOut && !s.finished then s.(pc := Inspecting(a.duration)) else CheckWorkload(s, a)
  }

  function Poll(s: State, a: Answer): State {
    if a.completed || s.userStopped then AfterLoop(s, a)
    else if a.deadline then s.(pc := InterruptingWorkload(true))
    else if s.finished then s.(pc := InterruptingWorkload(false))
    else s.(pc := Polling)
  }

  /** The collector's start has been answered. */
  function Started(c: Config, s: State, a: Answer): State {
    var t := if a.ok then s.(handle := true) else s.(finished := true, error := Some(RunFailed));
    if c.launches then Poll(t, a) else EnterWait(t)
  }

  function Conclude(c: Config, s: State, a: Answer, duration: real, rows: Option<nat>, killed: bool): State
  {
    var error := Resolve(c.interval, duration, MinimumSamples, Eligible(rows, c.interval, duration), s.error, killed);
    CheckWorkload(s.(conclusion := Some(Conclusion(duration, rows, s.error, killed)), error := error), a)
  }

  predicate EnoughBefore(c: Config, duration: real, rows: Option<nat>)
  {
    rows.Some? && EligibleSampleCount(rows.value, c.interval, duration) >= MinimumSamples
  }

  function AfterStop(c: Config, s: State, a: Answer): State
    requires s.pc.Stopping? && s.pc.call < |s.calls| && s.calls[s.pc.call] != Joined
  {
    var killed := s.calls[s.pc.call].Answered? && s.calls[s.pc.call].killed;
    if EnoughBefore(c, s.pc.duration, s.pc.before) then Conclude(c, s, a, s.pc.duration, s.pc.before, killed)
    else s.(pc := InspectingAgain(s.pc.duration, killed))
  }

  predicate RunEnabled(s: State) {
    match s.pc
    case Stopping(_, call, _) => call < |s.calls| && s.calls[call] != Joined
    case Threw => false
    case Done => false
    case _ => true
  }

  function StepRun(c: Config, s: State, a: Answer): State
    requires RunEnabled(s)
  {
    match s.pc
    case LaunchingWorkload => if a.ok then s.(pc := StartingCollector) else s.(pc := Threw)
    case StartingCollector => Started(c, s, a)
    case Polling => Poll(s, a)
    case InterruptingWorkload(deadline) => AfterLoop(s.(timedOut := s.timedOut || deadline), a)
    case Inspecting(d) => RequestStop(s).(pc := Stopping(d, |s.calls|, a.rows))
    case Stopping(_, _, _) => AfterStop(c, s, a)
    case InspectingAgain(d, killed) => Conclude(c, s, a, d, a.rows, killed)
    case WaitingEnd => EnterWait(s)
  }

  // ---- all labels ----

  predicate Enabled(s: State, l: Label) {
    match l
    case RunStep(_) => RunEnabled(s)
    case AttemptStep(o) => AttemptEnabled(s, o)
    case Wake(i) => i < |s.calls| && s.calls[i] == Joined && s.attempt.Resolved?
    case CollectorEnds(_) => s.handle && !s.finished
    case OnStop => true
    case OnCancel(kills) => kills <==> s.handle
  }

  function Apply(c: Config, s: State, l: Label): State
    requires Enabled(s, l)
  {
    match l
    case RunStep(a) => StepRun(c, s, a)
    case AttemptStep(o) => StepAttempt(s, o)
    case Wake(i) => s.(calls := s.calls[i := Answered(s.attempt.killed)])
    case CollectorEnds(e) => Emit(s, Finished).(finished := true, error := if e.Some? then e else s.error)
    case OnStop => RequestStop(s.(userStopped := true))
    case OnCancel(kills) => (if kills then Emit(s, CancelKill) else s).(userStopped := true)
  }

  /** A run; a label that cannot happen when its turn comes is passed over. */
  function Run(c: Config, labels: seq<Label>): State
  {
    if labels == [] then Init()
    else
      var s := Run(c, labels[..|labels| - 1]);
      if Enabled(s, labels[|labels| - 1]) then Apply(c, s, labels[|labels| - 1]) else s
  }

  // ---- the program's own form ----

  /** The tool with the `ctx.metadata` slots it updates in place. */
  class CollectorTool {
    const config: Config
    var collectorHandle: bool
    var collectorFinished: bool
    var collectorError: Option<CollectorError>
    var userStopped: bool
    var timedOut: bool
    var collectorStopPromise: Attempt
    var calls: seq<Call>
    var pc: RunPc
    var conclusion: Option<Conclusion>
    var log: seq<Event>

    function View(): State
      reads this
    {
      State(collectorHandle, collectorFinished, collectorError, userStopped, timedOut,
            collectorStopPromise, calls, pc, conclusion, log)
    }

    constructor (c: Config)
      ensures config == c && View() == Init()
    {
      config := c;
      collectorHandle, collectorFinished, collectorError, userStopped, timedOut := false, false, None, false, false;
      collectorStopPromise, calls, pc, conclusion, log := NoAttempt, [], LaunchingWorkload, None, [];
    }

    /** `stopCollectorWithFallback` up to its first `await`. */
    method StopCollector()
      modifies this`collectorStopPromise, this`calls, this`log
      ensures View() == RequestStop(old(View()))
    {
      if !collectorHandle || collectorFinished {
        calls := calls + [Immediate];
        return;
      }
      calls := calls + [Joined];
      if collectorStopPromise == NoAttempt {
        collectorStopPromise := Interrupting;
        log := log + [StopInterrupt];
      }
    }

    /** The race between the collector's end and the grace period is decided. */
    method GraceDecided(o: Outcome)
      requires collectorStopPromise.Racing? && AttemptEnabled(View(), o)
      modifies this`collectorStopPromise, this`log
      ensures View() == Apply(config, old(View()), AttemptStep(o))
    {
      if o.GraceEnds? {
        log := log + [GraceOver];
      }
      if !collectorFinished {
        collectorStopPromise := Killing;
        log := log + [StopKill];
      } else {
        collectorStopPromise := Resolved(false);
      }
    }

    method Stop()
      modifies this
      ensures View() == Apply(config, old(View()), OnStop)
    {
      userStopped := true;
      StopCollector();
    }

    method Cancel()
      modifies this
      ensures View() == Apply(config, old(View()), OnCancel(old(collectorHandle)))
    {
      userStopped := true;
      if collectorHandle {
        log := log + [CancelKill];
      }
    }

    method WaitForEnd()
      modifies this`pc, this`log
      ensures View() == EnterWait(old(View()))
    {
      if !collectorFinished {
        pc := WaitingEnd;
      } else if collectorError.Some? {
        pc := Threw;
      } else {
        log := log + [Emitted];
        pc := Done;
      }
    }

    method AssertHealthy(a: Answer)
      modifies this`pc, this`log
      ensures View() == CheckWorkload(old(View()), a)
    {
      if a.healthy {
        WaitForEnd();
      } else {
        pc := Threw;
      }
    }

    /** One round of the polling loop. */
    method PollWorkload(a: Answer)
      modifies this`pc, this`log
      ensures View() == Poll(old(View()), a)
    {
      if a.completed || userStopped {
        LeaveLoop(a);
      } else if a.deadline {
        pc := InterruptingWorkload(true);
      } else if collectorFinished {
        pc := InterruptingWorkload(false);
      } else {
        pc := Polling;
      }
    }

    method LeaveLoop(a: Answer)
      modifies this`pc, this`log
      ensures View() == AfterLoop(old(View()), a)
    {
      if !userStopped && !timedOut && !collectorFinished {
        pc := Inspecting(a.duration);
      } else {
        AssertHealthy(a);
      }
    }

    method CollectorStarted(a: Answer)
      requires pc.StartingCollector?
      modifies this
      ensures View() == Apply(config, old(View()), RunStep(a))
    {
      if a.ok {
        collectorHandle := true;
      } else {
        collectorFinished, collectorError := true, Some(RunFailed);
      }
      if config.launches {
        PollWorkload(a);
      } else {
        WaitForEnd();
      }
    }

    /** The rows were counted for the first time; the collector is stopped. */
    method Inspected(a: Answer)
      requires pc.Inspecting?
      modifies this
      ensures View() == Apply(config, old(View()), RunStep(a))
    {
      var call := |calls|;
      StopCollector();
      pc := Stopping(pc.duration, call, a.rows);
    }

    /** The end of `finalizeCollectorAfterWorkload`, and what `run` does with its result. */
    method Finalize(a: Answer, duration: real, rows: Option<nat>, killed: bool)
      modifies this
      ensures View() == Conclude(config, old(View()), a, duration, rows, killed)
    {
      conclusion := Some(Conclusion(duration, rows, collectorError, killed));
      collectorError := Resolve(config.interval, duration, MinimumSamples,
                                Eligible(rows, config.interval, duration), collectorError, killed);
      AssertHealthy(a);
    }

    /** The stop has been answered; the rows are counted again unless there were enough. */
    method Stopped(a: Answer)
      requires pc.Stopping? && RunEnabled(View())
      modifies this
      ensures View() == Apply(config, old(View()), RunStep(a))
    {
      var killed := calls[pc.call].Answered? && calls[pc.call].killed;
      if EnoughBefore(config, pc.duration, pc.before) {
        Finalize(a, pc.duration, pc.before, killed);
      } else {
        pc := InspectingAgain(pc.duration, killed);
      }
    }

    method Ended(e: Option<CollectorError>)
      requires collectorHandle && !collectorFinished
      modifies this
      ensures View() == Apply(config, old(View()), CollectorEnds(e))
    {
      collectorFinished := true;
      log := log + [Finished];
      if e.Some? {
        collectorError := e;
      }
    }

    /** The stop attempt goes on with the answer to what it awaited. */
    method ContinueStop(o: Outcome)
      requires AttemptEnabled(View(), o)
      modifies this`collectorStopPromise, this`log
      ensures View() == StepAttempt(old(View()), o)
    {
      match collectorStopPromise
      case Interrupting => collectorStopPromise := Racing;
      case Racing => GraceDecided(o);
      case Killing => collectorStopPromise := if o.Succeeds? then AwaitingEnd else Resolved(true);
      case AwaitingEnd => collectorStopPromise := Resolved(true);
    }

    /** `run` goes on with the answer to what it awaited. */
    method Resume(a: Answer)
      requires RunEnabled(View())
      modifies this
      ensures View() == StepRun(config, old(View()), a)
    {
      match pc
      case LaunchingWorkload => pc := if a.ok then StartingCollector else Threw;
      case StartingCollector => CollectorStarted(a);
      case Polling => PollWorkload(a);
      case InterruptingWorkload(deadline) =>
        timedOut := timedOut || deadline;
        LeaveLoop(a);
      case Inspecting(_) => Inspected(a);
      case Stopping(_, _, _) => Stopped(a);
      case InspectingAgain(duration, killed) => Finalize(a, duration, a.rows, killed);
      case WaitingEnd => WaitForEnd();
    }

    /** Any step of an interleaving. */
    method Perform(l: Label)
      requires Enabled(View(), l)
      modifies this
      ensures View() == Apply(config, old(View()), l)
    {
      match l
      case RunStep(a) => Resume(a);
      case AttemptStep(o) => ContinueStop(o);
      case Wake(i) => calls := calls[i := Answered(collectorStopPromise.killed)];
      case CollectorEnds(e) => Ended(e);
      case OnStop => Stop();
      case OnCancel(_) => Cancel();
    }
  }
}
