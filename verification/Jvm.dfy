/** The jitdump-jvm tool integration: `run` launches the JVM agent and possibly a
    workload, races their exits, and cleans up, while any number of `onStop` and
    `onCancel` callbacks act on the same process states. A step is the code between two
    `await`s; what an awaited call answers is chosen by the environment. */
module Jvm {
  import opened Wrappers

  datatype ProcessId = Agent | Workload

  /** A process state made by `promiseProcessExit`: its exit promise is pending, settled
      with a result, or settled with an error. The handle is cleared only by a result. */
  datatype Exit = Pending | Exited(code: int) | WaitFailed

  datatype Process = Absent | Process(exit: Exit, killTried: bool) {
    /** `ctx.metadata.<x>Process?.handle` is not null. */
    predicate HandleSet() {
      Process? && !exit.Exited?
    }

    predicate Settled() {
      Process? ==> !exit.Pending?
    }

    /** A confirmed exit, or a kill was attempted. */
    predicate Safe() {
      Process? ==> exit.Exited? || killTried
    }
  }

  /** `endProcess`, called with the handle set. */
  datatype EndPc =
    | EndInterrupting               // awaiting interrupt()
    | EndGrace                      // awaiting exit or the stop grace period
    | EndKilling(waitError: bool)   // awaiting kill()

  /** How one step of `endProcess` goes on. */
  datatype EndNext = Continue(pc: EndPc) | EndReturns | EndThrows

  datatype CallPc =
    | StoppingWorkload(end: EndPc)
    | StoppingAgent(end: EndPc)
    | CancellingAgent               // awaiting the kill of the agent
    | CancellingWorkload            // awaiting the kill of the workload
    | CallDone

  datatype RunPc =
    | Deploying                     // awaiting ensureDeployed
    | Preparing                     // awaiting the output directories
    | StartingAgent
    | KillingAgent
    | StartingWorkload
    | KillingWorkload
    | Racing
    | CleaningWorkload(end: EndPc)
    | CleaningAgent(end: EndPc)
    | AwaitingExits                 // the cancelled clean-up
    | RunSettled

  datatype Config = Config(launchesWorkload: bool, hasTimeout: bool)

  datatype State = State(
    requestStop: bool,
    requestCancel: bool,
    agent: Process,
    workload: Process,
    pc: RunPc,
    failed: bool,                   // run has thrown
    calls: seq<CallPc>,
    trackerStarts: nat,
    trackerEnds: nat
  )

  datatype Outcome = Done | Fails | TimedOut | WorkloadSettles | AgentSettles

  datatype Label =
    | ProcessExits(process: ProcessId, code: int)
    | ProcessWaitFails(process: ProcessId)
    | OnStop
    | OnCancel
    | RunStep(outcome: Outcome)
    | CallStep(call: nat, outcome: Outcome)

  function Init(): State {
    State(false, false, Absent, Absent, Deploying, false, [], 0, 0)
  }

  function Get(s: State, p: ProcessId): Process {
    if p.Agent? then s.agent else s.workload
  }

  function Put(s: State, p: ProcessId, x: Process): State {
    if p.Agent? then s.(agent := x) else s.(workload := x)
  }

  function TryKill(s: State, p: ProcessId): State {
    var x := Get(s, p);
    if x.Process? then Put(s, p, x.(killTried := true)) else s
  }

  // ---- endProcess ----

  predicate EndEnabled(x: Process, pc: EndPc, o: Outcome) {
    match pc
    case EndInterrupting => o.Done? || o.Fails?
    case EndGrace => o.TimedOut? || (o.Done? && x.Settled())
    case EndKilling(_) => o.Done? || o.Fails?
  }

  /** The answer to `pc` decides whether to wait, to escalate to kill, or to leave. */
  function NextEnd(x: Process, pc: EndPc, o: Outcome): EndNext
    requires EndEnabled(x, pc, o)
  {
    match pc
    case EndInterrupting => if o.Done? then Continue(EndGrace) else Continue(EndKilling(false))
    case EndGrace =>
      if o.TimedOut? then Continue(EndKilling(false))
      else if x.Process? && x.exit.WaitFailed? then Continue(EndKilling(true))
      else EndReturns
    case EndKilling(waitError) => if o.Done? && !waitError then EndReturns else EndThrows
  }

  /** Starting to wait for `kill()` is the kill attempt. */
  function Attempt(s: State, p: ProcessId, next: EndNext): State {
    if next.Continue? && next.pc.EndKilling? then TryKill(s, p) else s
  }

  // ---- run ----

  /** Publish the logs and end the tracker. */
  function Finish(s: State): State {
    s.(pc := RunSettled, trackerEnds := s.trackerEnds + 1)
  }

  function CleanAgent(s: State): State {
    if s.agent.HandleSet() then s.(pc := CleaningAgent(EndInterrupting)) else Finish(s)
  }

  /** The outer `finally`: a cancelled run waits, any other run ends its processes. */
  function EnterCleanup(s: State): State {
    if s.requestCancel then s.(pc := AwaitingExits)
    else if s.workload.HandleSet() then s.(pc := CleaningWorkload(EndInterrupting))
    else CleanAgent(s)
  }

  function Throw(s: State): State {
    EnterCleanup(s.(failed := true))
  }

  function EnterRace(s: State): State {
    if s.requestStop || s.requestCancel then EnterCleanup(s) else s.(pc := Racing)
  }

  function AfterAgent(c: Config, s: State): State {
    if s.requestStop || s.requestCancel then EnterCleanup(s)
    else if c.launchesWorkload then s.(pc := StartingWorkload)
    else EnterRace(s)
  }

  function AgentLaunched(c: Config, s: State): State {
    var s1 := s.(agent := Process(Pending, false));
    if s1.requestCancel then TryKill(s1, Agent).(pc := KillingAgent) else AfterAgent(c, s1)
  }

  function WorkloadLaunched(s: State): State {
    var s1 := s.(workload := Process(Pending, false));
    if s1.requestCancel then TryKill(s1, Workload).(pc := KillingWorkload) else EnterRace(s1)
  }

  predicate RaceEnabled(c: Config, s: State, o: Outcome) {
    match o
    case TimedOut => c.hasTimeout
    case WorkloadSettles => s.workload.Process? && s.workload.Settled()
    case AgentSettles => s.agent.Process? && s.agent.Settled()
    case _ => false
  }

  function RaceSettled(c: Config, s: State, o: Outcome): State
    requires RaceEnabled(c, s, o)
  {
    var requested := s.requestStop || s.requestCancel;
    match o
    case TimedOut => EnterCleanup(s.(requestStop := true))
    case WorkloadSettles =>
      if s.workload.exit.WaitFailed? || (s.workload.exit.code != 0 && !requested) then Throw(s)
      else EnterCleanup(s)
    case AgentSettles =>
      if s.agent.exit.WaitFailed? || !requested then Throw(s) else EnterCleanup(s)
  }

  /** The workload's `endProcess` returned, or threw. The handler that logs the failure
      reads the handle once more: if the exit was confirmed meanwhile, it throws itself and
      the agent is not ended. */
  function WorkloadEnded(s: State, threw: bool): State {
    if threw && !s.workload.HandleSet() then Finish(s.(failed := true)) else CleanAgent(s)
  }

  function AgentEnded(s: State, threw: bool): State {
    if threw && !s.agent.HandleSet() then Finish(s.(failed := true)) else Finish(s)
  }

  predicate RunEnabled(c: Config, s: State, o: Outcome) {
    match s.pc
    case RunSettled => false
    case Racing => RaceEnabled(c, s, o)
    case CleaningWorkload(end) => EndEnabled(s.workload, end, o)
    case CleaningAgent(end) => EndEnabled(s.agent, end, o)
    case AwaitingExits => o.Done? && s.agent.Settled() && s.workload.Settled()
    case _ => o.Done? || o.Fails?
  }

  function ApplyRun(c: Config, s: State, o: Outcome): State
    requires RunEnabled(c, s, o)
  {
    match s.pc
    case Deploying =>
      if o.Fails? then s.(pc := RunSettled, failed := true)
      else if s.requestStop || s.requestCancel then s.(pc := RunSettled)
      else s.(pc := Preparing)
    case Preparing =>
      if o.Fails? then s.(pc := RunSettled, failed := true)
      else s.(pc := StartingAgent, trackerStarts := s.trackerStarts + 1)
    case StartingAgent => if o.Fails? then Throw(s) else AgentLaunched(c, s)
    case KillingAgent => if o.Fails? then Throw(s) else AfterAgent(c, s)
    case StartingWorkload => if o.Fails? then Throw(s) else WorkloadLaunched(s)
    case KillingWorkload => if o.Fails? then Throw(s) else EnterRace(s)
    case Racing => RaceSettled(c, s, o)
    case CleaningWorkload(end) =>
      var next := NextEnd(s.workload, end, o);
      if next.Continue? then Attempt(s, Workload, next).(pc := CleaningWorkload(next.pc))
      else WorkloadEnded(s, next.EndThrows?)
    case CleaningAgent(end) =>
      var next := NextEnd(s.agent, end, o);
      if next.Continue? then Attempt(s, Agent, next).(pc := CleaningAgent(next.pc))
      else AgentEnded(s, next.EndThrows?)
    case AwaitingExits => Finish(s)
  }

  // ---- onStop and onCancel ----

  function BeginStop(s: State): State {
    var s1 := s.(requestStop := true);
    if s1.workload.HandleSet() then s1.(calls := s1.calls + [StoppingWorkload(EndInterrupting)])
    else if s1.agent.HandleSet() then s1.(calls := s1.calls + [StoppingAgent(EndInterrupting)])
    else s1.(calls := s1.calls + [CallDone])
  }

  /** `onCancel` after the agent: kill the workload, whatever happened to the agent. */
  function CancelWorkload(s: State): (State, CallPc) {
    if s.workload.HandleSet() then (TryKill(s, Workload), CancellingWorkload) else (s, CallDone)
  }

  function BeginCancel(s: State): State {
    var s1 := s.(requestCancel := true);
    if s1.agent.HandleSet() then
      TryKill(s1, Agent).(calls := s1.calls + [CancellingAgent])
    else
      var (s2, pc) := CancelWorkload(s1);
      s2.(calls := s2.calls + [pc])
  }

  predicate CallEnabled(s: State, i: nat, o: Outcome) {
    && i < |s.calls|
    && match s.calls[i]
       case StoppingWorkload(end) => EndEnabled(s.workload, end, o)
       case StoppingAgent(end) => EndEnabled(s.agent, end, o)
       case CancellingAgent => o.Done? || o.Fails?
       case CancellingWorkload => o.Done? || o.Fails?
       case CallDone => false
  }

  function ApplyCall(s: State, i: nat, o: Outcome): State
    requires CallEnabled(s, i, o)
  {
    match s.calls[i]
    case StoppingWorkload(end) =>
      var next := NextEnd(s.workload, end, o);
      if next.Continue? then
        Attempt(s, Workload, next).(calls := s.calls[i := StoppingWorkload(next.pc)])
      else if next.EndThrows? && s.agent.HandleSet() then
        s.(calls := s.calls[i := StoppingAgent(EndInterrupting)])
      else s.(calls := s.calls[i := CallDone])
    case StoppingAgent(end) =>
      var next := NextEnd(s.agent, end, o);
      if next.Continue? then
        Attempt(s, Agent, next).(calls := s.calls[i := StoppingAgent(next.pc)])
      else s.(calls := s.calls[i := CallDone])
    case CancellingAgent =>
      var (s1, pc) := CancelWorkload(s);
      s1.(calls := s1.calls[i := pc])
    case CancellingWorkload => s.(calls := s.calls[i := CallDone])
  }

  // ---- interleavings ----

  predicate Enabled(c: Config, s: State, l: Label) {
    match l
    case ProcessExits(p, _) => Get(s, p).Process? && Get(s, p).exit.Pending?
    case ProcessWaitFails(p) => Get(s, p).Process? && Get(s, p).exit.Pending?
    case OnStop => true
    case OnCancel => true
    case RunStep(o) => RunEnabled(c, s, o)
    case CallStep(i, o) => CallEnabled(s, i, o)
  }

  function Apply(c: Config, s: State, l: Label): State
    requires Enabled(c, s, l)
  {
    match l
    case ProcessExits(p, code) => Put(s, p, Get(s, p).(exit := Exited(code)))
    case ProcessWaitFails(p) => Put(s, p, Get(s, p).(exit := WaitFailed))
    case OnStop => BeginStop(s)
    case OnCancel => BeginCancel(s)
    case RunStep(o) => ApplyRun(c, s, o)
    case CallStep(i, o) => ApplyCall(s, i, o)
  }

  /** The state after the given interleaving from `s`, if every step of it can happen. */
  function Exec(c: Config, s: State, labels: seq<Label>): Option<State>
    decreases |labels|
  {
    if labels == [] then Some(s)
    else if Enabled(c, s, labels[0]) then Exec(c, Apply(c, s, labels[0]), labels[1..])
    else None
  }

  /** The shared state and the positions of `run` and of the callbacks, in place. */
  class JvmTool {
    const config: Config
    var requestStop: bool
    var requestCancel: bool
    var agent: Process
    var workload: Process
    var pc: RunPc
    var failed: bool
    var calls: seq<CallPc>
    var trackerStarts: nat
    var trackerEnds: nat

    function View(): State
      reads this
    {
      State(requestStop, requestCancel, agent, workload, pc, failed, calls, trackerStarts, trackerEnds)
    }

    constructor (c: Config)
      ensures config == c && View() == Init()
    {
      config := c;
      requestStop, requestCancel, agent, workload := false, false, Absent, Absent;
      pc, failed, calls, trackerStarts, trackerEnds := Deploying, false, [], 0, 0;
    }

    method AttemptKill(p: ProcessId)
      modifies this`agent, this`workload
      ensures View() == TryKill(old(View()), p)
    {
      if p.Agent? && agent.Process? {
        agent := agent.(killTried := true);
      } else if p.Workload? && workload.Process? {
        workload := workload.(killTried := true);
      }
    }

    method PublishAndEnd()
      modifies this`pc, this`trackerEnds
      ensures View() == Finish(old(View()))
    {
      trackerEnds := trackerEnds + 1;
      pc := RunSettled;
    }

    method EndAgentIfRunning()
      modifies this`pc, this`trackerEnds
      ensures View() == CleanAgent(old(View()))
    {
      if agent.HandleSet() {
        pc := CleaningAgent(EndInterrupting);
      } else {
        PublishAndEnd();
      }
    }

    method Cleanup()
      modifies this`pc, this`trackerEnds
      ensures View() == EnterCleanup(old(View()))
    {
      if requestCancel {
        pc := AwaitingExits;
      } else if workload.HandleSet() {
        pc := CleaningWorkload(EndInterrupting);
      } else {
        EndAgentIfRunning();
      }
    }

    /** `run` throws into its outer `finally`. */
    method ThrowOut()
      modifies this`pc, this`trackerEnds, this`failed
      ensures View() == Throw(old(View()))
    {
      failed := true;
      Cleanup();
    }

    method RaceUnlessRequested()
      modifies this`pc, this`trackerEnds
      ensures View() == EnterRace(old(View()))
    {
      if requestStop || requestCancel {
        Cleanup();
      } else {
        pc := Racing;
      }
    }

    method ProceedFromAgent()
      modifies this`pc, this`trackerEnds
      ensures View() == AfterAgent(config, old(View()))
    {
      if requestStop || requestCancel {
        Cleanup();
      } else if config.launchesWorkload {
        pc := StartingWorkload;
      } else {
        RaceUnlessRequested();
      }
    }

    method AgentStarted()
      modifies this
      ensures View() == AgentLaunched(config, old(View()))
    {
      agent := Process(Pending, false);
      if requestCancel {
        AttemptKill(Agent);
        pc := KillingAgent;
        return;
      }
      ProceedFromAgent();
    }

    method WorkloadStarted()
      modifies this
      ensures View() == WorkloadLaunched(old(View()))
    {
      workload := Process(Pending, false);
      if requestCancel {
        AttemptKill(Workload);
        pc := KillingWorkload;
        return;
      }
      RaceUnlessRequested();
    }

    method RaceDecided(o: Outcome)
      requires RaceEnabled(config, View(), o)
      modifies this
      ensures View() == RaceSettled(config, old(View()), o)
    {
      if o.TimedOut? {
        requestStop := true;
      } else if o.WorkloadSettles? {
        failed := failed || workload.exit.WaitFailed?
                  || (workload.exit.code != 0 && !requestStop && !requestCancel);
      } else {
        failed := failed || agent.exit.WaitFailed? || (!requestStop && !requestCancel);
      }
      Cleanup();
    }

    /** One step of `endProcess` on the workload during clean-up. */
    method CleanWorkloadStep(o: Outcome)
      requires pc.CleaningWorkload? && RunEnabled(config, View(), o)
      modifies this
      ensures View() == ApplyRun(config, old(View()), o)
    {
      var next := NextEnd(workload, pc.end, o);
      match next
      case Continue(end) =>
        if end.EndKilling? {
          AttemptKill(Workload);
        }
        pc := CleaningWorkload(end);
      case EndReturns => EndAgentIfRunning();
      case EndThrows =>
        if workload.HandleSet() {
          EndAgentIfRunning();
        } else {
          failed := true;
          PublishAndEnd();
        }
    }

    /** The same on the agent. */
    method CleanAgentStep(o: Outcome)
      requires pc.CleaningAgent? && RunEnabled(config, View(), o)
      modifies this
      ensures View() == ApplyRun(config, old(View()), o)
    {
      var next := NextEnd(agent, pc.end, o);
      match next
      case Continue(end) =>
        if end.EndKilling? {
          AttemptKill(Agent);
        }
        pc := CleaningAgent(end);
      case EndReturns => PublishAndEnd();
      case EndThrows =>
        if !agent.HandleSet() {
          failed := true;
        }
        PublishAndEnd();
    }

    /** Before the tracker is started, a failure leaves `run` at once. */
    method PrepareStep(o: Outcome)
      requires (pc.Deploying? || pc.Preparing?) && RunEnabled(config, View(), o)
      modifies this`pc, this`failed, this`trackerStarts
      ensures View() == ApplyRun(config, old(View()), o)
    {
      if o.Fails? {
        pc, failed := RunSettled, true;
      } else if pc.Preparing? {
        trackerStarts := trackerStarts + 1;
        pc := StartingAgent;
      } else if requestStop || requestCancel {
        pc := RunSettled;
      } else {
        pc := Preparing;
      }
    }

    /** A start or an early kill has been answered. */
    method StartStep(o: Outcome)
      requires pc.StartingAgent? || pc.KillingAgent? || pc.StartingWorkload? || pc.KillingWorkload?
      requires RunEnabled(config, View(), o)
      modifies this
      ensures View() == ApplyRun(config, old(View()), o)
    {
      if o.Fails? {
        ThrowOut();
        return;
      }
      match pc
      case StartingAgent => AgentStarted();
      case KillingAgent => ProceedFromAgent();
      case StartingWorkload => WorkloadStarted();
      case KillingWorkload => RaceUnlessRequested();
    }

    /** `run` goes on with the answer to what it awaited. */
    method Resume(o: Outcome)
      requires RunEnabled(config, View(), o)
      modifies this
      ensures View() == ApplyRun(config, old(View()), o)
    {
      match pc
      case Deploying => PrepareStep(o);
      case Preparing => PrepareStep(o);
      case StartingAgent => StartStep(o);
      case KillingAgent => StartStep(o);
      case StartingWorkload => StartStep(o);
      case KillingWorkload => StartStep(o);
      case Racing => RaceDecided(o);
      case CleaningWorkload(_) => CleanWorkloadStep(o);
      case CleaningAgent(_) => CleanAgentStep(o);
      case AwaitingExits => PublishAndEnd();
    }

    /** A stop callback goes on. */
    method ResumeStop(i: nat, o: Outcome)
      requires CallEnabled(View(), i, o) && (calls[i].StoppingWorkload? || calls[i].StoppingAgent?)
      modifies this`agent, this`workload, this`calls
      ensures View() == ApplyCall(old(View()), i, o)
    {
      var p := if calls[i].StoppingWorkload? then Workload else Agent;
      var next := NextEnd(if p.Workload? then workload else agent, calls[i].end, o);
      match next
      case Continue(end) =>
        if end.EndKilling? {
          AttemptKill(p);
        }
        calls := calls[i := if p.Workload? then StoppingWorkload(end) else StoppingAgent(end)];
      case EndReturns => calls := calls[i := CallDone];
      case EndThrows =>
        if p.Workload? && agent.HandleSet() {
          calls := calls[i := StoppingAgent(EndInterrupting)];
        } else {
          calls := calls[i := CallDone];
        }
    }

    /** A cancel callback goes on: behind the agent comes the workload. */
    method ResumeCancel(i: nat, o: Outcome)
      requires CallEnabled(View(), i, o) && (calls[i].CancellingAgent? || calls[i].CancellingWorkload?)
      modifies this`agent, this`workload, this`calls
      ensures View() == ApplyCall(old(View()), i, o)
    {
      if calls[i].CancellingAgent? && workload.HandleSet() {
        AttemptKill(Workload);
        calls := calls[i := CancellingWorkload];
      } else {
        calls := calls[i := CallDone];
      }
    }

    /** A process's exit promise settles; a result clears the handle, an error does not. */
    method ExitSettles(p: ProcessId, exit: Exit)
      requires Get(View(), p).Process?
      modifies this`agent, this`workload
      ensures View() == Put(old(View()), p, Get(old(View()), p).(exit := exit))
    {
      if p.Agent? {
        agent := agent.(exit := exit);
      } else {
        workload := workload.(exit := exit);
      }
    }

    /** Any step of an interleaving. */
    method Perform(l: Label)
      requires Enabled(config, View(), l)
      modifies this
      ensures View() == Apply(config, old(View()), l)
    {
      match l
      case ProcessExits(p, code) => ExitSettles(p, Exited(code));
      case ProcessWaitFails(p) => ExitSettles(p, WaitFailed);
      case OnStop => Stop();
      case OnCancel => Cancel();
      case RunStep(o) => Resume(o);
      case CallStep(i, o) =>
        if calls[i].StoppingWorkload? || calls[i].StoppingAgent? {
          ResumeStop(i, o);
        } else {
          ResumeCancel(i, o);
        }
    }

    method Stop()
      modifies this
      ensures View() == Apply(config, old(View()), OnStop)
    {
      requestStop := true;
      if workload.HandleSet() {
        calls := calls + [StoppingWorkload(EndInterrupting)];
      } else if agent.HandleSet() {
        calls := calls + [StoppingAgent(EndInterrupting)];
      } else {
        calls := calls + [CallDone];
      }
    }

    method Cancel()
      modifies this
      ensures View() == Apply(config, old(View()), OnCancel)
    {
      requestCancel := true;
      if agent.HandleSet() {
        AttemptKill(Agent);
        calls := calls + [CancellingAgent];
      } else if workload.HandleSet() {
        AttemptKill(Workload);
        calls := calls + [CancellingWorkload];
      } else {
        calls := calls + [CallDone];
      }
    }
  }
}
