/** How runs of the JVM integration end: exactly which of them fail, what runs when they race,
    and what a stop callback has done about the processes. */
module JvmOutcomes {
  import opened Wrappers
  import opened Jvm
  import opened JvmSafety

  // ---- one run and its beginnings ----

  function StateAt(c: Config, labels: seq<Label>, k: nat): Option<State>
    requires k <= |labels|
  {
    Exec(c, Init(), labels[..k])
  }

  ghost predicate Possible(c: Config, labels: seq<Label>, n: nat)
    requires n <= |labels|
  {
    forall k: nat :: k <= n ==> StateAt(c, labels, k).Some?
  }

  lemma OneFurther(c: Config, labels: seq<Label>, k: nat)
    requires k < |labels| && StateAt(c, labels, k + 1).Some?
    ensures StateAt(c, labels, k).Some?
    ensures var s := StateAt(c, labels, k).value;
            Enabled(c, s, labels[k]) && StateAt(c, labels, k + 1).value == Apply(c, s, labels[k])
  {
    ExecAppend(c, Init(), labels[..k], labels[k]);
    assert labels[..k + 1] == labels[..k] + [labels[k]];
  }

  lemma {:induction false} AllPossible(c: Config, labels: seq<Label>, n: nat)
    requires n <= |labels| && StateAt(c, labels, n).Some?
    ensures Possible(c, labels, n)
  {
    if n > 0 {
      OneFurther(c, labels, n - 1);
      AllPossible(c, labels, n - 1);
    }
  }

  lemma Reached(c: Config, labels: seq<Label>, k: nat)
    requires k <= |labels| && StateAt(c, labels, k).Some?
    ensures Inv(StateAt(c, labels, k).value) && WaitErrorInv(StateAt(c, labels, k).value)
  {
    ExecKeepsInv(c, Init(), labels[..k]);
    WaitErrorExec(c, Init(), labels[..k]);
  }

  // ---- which runs fail ----

  predicate Requested(s: State) {
    s.requestStop || s.requestCancel
  }

  predicate MainPath(pc: RunPc) {
    || pc.Deploying? || pc.Preparing? || pc.StartingAgent? || pc.KillingAgent?
    || pc.StartingWorkload? || pc.KillingWorkload?
  }

  /** A deployment, a start or an early kill that fails. */
  predicate CallFails(s: State, l: Label) {
    l == RunStep(Fails) && MainPath(s.pc)
  }

  /** The race is decided by a failed wait, or unasked by the agent or by a workload's failure. */
  predicate RaceFails(s: State, l: Label) {
    && s.pc.Racing?
    && ((l == RunStep(WorkloadSettles) && s.workload.Process?
         && (s.workload.exit.WaitFailed? || (s.workload.exit != Exited(0) && !Requested(s))))
        || (l == RunStep(AgentSettles) && s.agent.Process? && (s.agent.exit.WaitFailed? || !Requested(s))))
  }

  /** The clean-up's kill fails when the exit is confirmed already, and so does the log line. */
  predicate LogLineFails(s: State, l: Label) {
    && l == RunStep(Fails)
    && ((s.pc.CleaningWorkload? && s.pc.end.EndKilling? && s.workload.Process? && s.workload.exit.Exited?)
        || (s.pc.CleaningAgent? && s.pc.end.EndKilling? && s.agent.Process? && s.agent.exit.Exited?))
  }

  predicate FailsRun(s: State, l: Label) {
    CallFails(s, l) || RaceFails(s, l) || LogLineFails(s, l)
  }

  lemma CleanupKeepsFailed(s: State)
    ensures EnterCleanup(s).failed == EnterRace(s).failed == CleanAgent(s).failed == Finish(s).failed == s.failed
    ensures Throw(s).failed
  {
  }

  lemma AfterAgentKeepsFailed(c: Config, s: State)
    ensures AfterAgent(c, s).failed == s.failed
  {
    CleanupKeepsFailed(s);
  }

  lemma MainPathFails(c: Config, s: State, o: Outcome)
    requires MainPath(s.pc) && RunEnabled(c, s, o)
    ensures ApplyRun(c, s, o).failed <==> s.failed || o.Fails?
  {
    CleanupKeepsFailed(s);
    AfterAgentKeepsFailed(c, s);
    AfterAgentKeepsFailed(c, s.(agent := Process(Pending, false)));
    CleanupKeepsFailed(s.(workload := Process(Pending, false)));
  }

  lemma RaceDecides(c: Config, s: State, o: Outcome)
    requires s.pc.Racing? && RaceEnabled(c, s, o)
    ensures RaceSettled(c, s, o).failed <==> s.failed || RaceFails(s, RunStep(o))
  {
    CleanupKeepsFailed(s);
    CleanupKeepsFailed(s.(requestStop := true));
  }

  /** A kill that carries a failed wait of the agent means that the wait has failed. */
  predicate AgentWaitError(s: State) {
    s.pc.CleaningAgent? && s.pc.end.EndKilling? && s.pc.end.waitError ==>
      s.agent.Process? && s.agent.exit.WaitFailed?
  }

  lemma EntersAgentWithoutKill(c: Config, s: State, o: Outcome)
    requires RunEnabled(c, s, o) && !s.pc.CleaningAgent?
    ensures var t := ApplyRun(c, s, o); t.pc.CleaningAgent? ==> !t.pc.end.EndKilling?
  {
  }

  lemma StepKeepsAgentWait(c: Config, s: State, l: Label)
    requires Inv(s) && AgentWaitError(s) && Enabled(c, s, l)
    ensures AgentWaitError(Apply(c, s, l))
  {
    if l.RunStep? {
      if s.pc.CleaningAgent? {
        AgentKillCarriesItsWait(c, s, l.outcome);
      } else {
        EntersAgentWithoutKill(c, s, l.outcome);
      }
    } else {
      OthersLeavePc(c, s, l);
      OthersMoveOn(c, s, l);
    }
  }

  lemma AgentKillCarriesItsWait(c: Config, s: State, o: Outcome)
    requires Inv(s) && RunEnabled(c, s, o) && s.pc.CleaningAgent?
    ensures AgentWaitError(ApplyRun(c, s, o))
  {
  }

  lemma CleaningFails(c: Config, s: State, o: Outcome)
    requires Inv(s) && WaitErrorInv(s) && AgentWaitError(s)
    requires (s.pc.CleaningWorkload? || s.pc.CleaningAgent? || s.pc.AwaitingExits?) && RunEnabled(c, s, o)
    ensures ApplyRun(c, s, o).failed <==> s.failed || LogLineFails(s, RunStep(o))
  {
    CleanupKeepsFailed(s);
  }

  lemma RunStepFails(c: Config, s: State, o: Outcome)
    requires Inv(s) && WaitErrorInv(s) && AgentWaitError(s) && RunEnabled(c, s, o)
    ensures ApplyRun(c, s, o).failed <==> s.failed || FailsRun(s, RunStep(o))
  {
    if MainPath(s.pc) {
      MainPathFails(c, s, o);
    } else if s.pc.Racing? {
      RaceDecides(c, s, o);
    } else {
      CleaningFails(c, s, o);
    }
  }

  lemma OthersKeepFailed(c: Config, s: State, l: Label)
    requires Enabled(c, s, l) && !l.RunStep?
    ensures Apply(c, s, l).failed == s.failed
  {
    match l
    case CallStep(i, o) => CallOnlyKills(c, s, i, o);
    case OnCancel => CancelShape(s);
    case _ =>
  }

  ghost predicate FailsAt(c: Config, labels: seq<Label>, k: nat) {
    k < |labels| && StateAt(c, labels, k).Some? && FailsRun(StateAt(c, labels, k).value, labels[k])
  }

  lemma FailsOneFurther(c: Config, labels: seq<Label>, k: nat)
    requires k < |labels| && StateAt(c, labels, k + 1).Some?
    requires StateAt(c, labels, k).Some? && AgentWaitError(StateAt(c, labels, k).value)
    ensures AgentWaitError(StateAt(c, labels, k + 1).value)
    ensures StateAt(c, labels, k + 1).value.failed <==> StateAt(c, labels, k).value.failed || FailsAt(c, labels, k)
  {
    var s, l := StateAt(c, labels, k).value, labels[k];
    OneFurther(c, labels, k);
    Reached(c, labels, k);
    StepKeepsAgentWait(c, s, l);
    if l.RunStep? {
      RunStepFails(c, s, l.outcome);
    } else {
      OthersKeepFailed(c, s, l);
    }
  }

  lemma {:induction false} FailedSoFar(c: Config, labels: seq<Label>, n: nat)
    requires n <= |labels| && Possible(c, labels, n)
    ensures AgentWaitError(StateAt(c, labels, n).value)
    ensures StateAt(c, labels, n).value.failed <==> exists k: nat :: k < n && FailsAt(c, labels, k)
  {
    if n > 0 {
      FailedSoFar(c, labels, n - 1);
      FailsOneFurther(c, labels, n - 1);
    }
  }

  /** A run fails if and only if a deployment, a start or an early kill failed, the race was
      decided by a failed wait, unasked by the agent, or unasked by a workload that did not exit
      with zero, or the log line of the clean-up failed. */
  lemma FailsExactly(c: Config, labels: seq<Label>)
    requires Exec(c, Init(), labels).Some?
    ensures Exec(c, Init(), labels).value.failed <==> exists k: nat :: FailsAt(c, labels, k)
  {
    assert labels[..|labels|] == labels;
    AllPossible(c, labels, |labels|);
    FailedSoFar(c, labels, |labels|);
  }

  // ---- who races ----

  /** The agent always runs in the race, the workload exactly if there is one to launch. */
  predicate Runners(c: Config, s: State) {
    && (s.pc.Racing? ==> s.agent.Process? && (c.launchesWorkload ==> s.workload.Process?))
    && (s.workload.Process? || s.pc.StartingWorkload? || s.pc.KillingWorkload? ==> c.launchesWorkload)
    && (s.pc.KillingAgent? || s.pc.StartingWorkload? || s.pc.KillingWorkload? ==> s.agent.Process?)
    && (s.pc.KillingWorkload? ==> s.workload.Process?)
  }

  lemma EnterRaceRunners(c: Config, s: State)
    requires s.agent.Process? && (s.workload.Process? <==> c.launchesWorkload)
    ensures Runners(c, EnterRace(s))
  {
  }

  lemma CleanupRunners(c: Config, s: State)
    requires s.workload.Process? ==> c.launchesWorkload
    ensures Runners(c, EnterCleanup(s)) && Runners(c, Throw(s)) && Runners(c, CleanAgent(s)) && Runners(c, Finish(s))
  {
  }

  lemma AfterAgentRunners(c: Config, s: State)
    requires s.agent.Process? && s.workload.Absent?
    ensures Runners(c, AfterAgent(c, s))
  {
    CleanupRunners(c, s);
    if !c.launchesWorkload {
      EnterRaceRunners(c, s);
    }
  }

  lemma MainPathRunners(c: Config, s: State, o: Outcome)
    requires Inv(s) && Runners(c, s) && MainPath(s.pc) && RunEnabled(c, s, o)
    ensures Runners(c, ApplyRun(c, s, o))
  {
    CleanupRunners(c, s);
    match s.pc
    case StartingAgent => if o.Done? { AfterAgentRunners(c, s.(agent := Process(Pending, false))); }
    case KillingAgent => AfterAgentRunners(c, s);
    case StartingWorkload => EnterRaceRunners(c, s.(workload := Process(Pending, false)));
    case KillingWorkload => EnterRaceRunners(c, s);
    case _ =>
  }

  lemma OtherRunners(c: Config, s: State, o: Outcome)
    requires Inv(s) && Runners(c, s) && !MainPath(s.pc) && RunEnabled(c, s, o)
    ensures Runners(c, ApplyRun(c, s, o))
  {
    CleanupRunners(c, s);
    CleanupRunners(c, s.(requestStop := true));
    CleanupRunners(c, s.(failed := true));
  }

  lemma StepKeepsRunners(c: Config, s: State, l: Label)
    requires Inv(s) && Runners(c, s) && Enabled(c, s, l)
    ensures Runners(c, Apply(c, s, l))
  {
    if l.RunStep? {
      if MainPath(s.pc) {
        MainPathRunners(c, s, l.outcome);
      } else {
        OtherRunners(c, s, l.outcome);
      }
    } else {
      OthersLeavePc(c, s, l);
      OthersKeepProcesses(c, s, l);
    }
  }

  lemma OthersKeepProcesses(c: Config, s: State, l: Label)
    requires Enabled(c, s, l) && !l.RunStep?
    ensures Apply(c, s, l).agent.Process? == s.agent.Process? && Apply(c, s, l).workload.Process? == s.workload.Process?
  {
    match l
    case CallStep(i, o) => CallOnlyKills(c, s, i, o);
    case OnCancel => CancelShape(s);
    case _ =>
  }

  /** The race is run by the agent and, when one is launched, the workload. */
  lemma {:induction false} RaceHasItsRunners(c: Config, labels: seq<Label>, n: nat)
    requires n <= |labels| && Possible(c, labels, n)
    ensures Runners(c, StateAt(c, labels, n).value)
  {
    if n > 0 {
      RaceHasItsRunners(c, labels, n - 1);
      OneFurther(c, labels, n - 1);
      Reached(c, labels, n - 1);
      StepKeepsRunners(c, StateAt(c, labels, n - 1).value, labels[n - 1]);
    }
  }

  /** Nothing is prepared, no workload is started and no race is entered once a request is
      recorded. */
  lemma RequestEndsLaunching(c: Config, labels: seq<Label>, k: nat)
    requires k < |labels| && StateAt(c, labels, k + 1).Some?
    ensures StateAt(c, labels, k).Some?
    ensures var s, t := StateAt(c, labels, k).value, StateAt(c, labels, k + 1).value;
            t.pc != s.pc && (t.pc.Preparing? || t.pc.StartingWorkload? || t.pc.Racing?) ==> !Requested(t)
  {
    OneFurther(c, labels, k);
    var s, l := StateAt(c, labels, k).value, labels[k];
    if l.RunStep? {
      EntersUnrequested(c, s, l.outcome);
    } else {
      OthersLeavePc(c, s, l);
    }
  }

  lemma EntersUnrequested(c: Config, s: State, o: Outcome)
    requires RunEnabled(c, s, o)
    ensures var t := ApplyRun(c, s, o);
            t.pc != s.pc && (t.pc.Preparing? || t.pc.StartingWorkload? || t.pc.Racing?) ==> !Requested(t)
  {
  }

  // ---- `run` comes to an end ----

  function EndRank(end: EndPc): nat {
    match end
    case EndInterrupting => 3
    case EndGrace => 2
    case EndKilling(_) => 1
  }

  /** A bound on the steps of `run` still to come. */
  function Rank(pc: RunPc): nat {
    match pc
    case Deploying => 13
    case Preparing => 12
    case StartingAgent => 11
    case KillingAgent => 10
    case StartingWorkload => 9
    case KillingWorkload => 8
    case Racing => 7
    case CleaningWorkload(end) => 3 + EndRank(end)
    case CleaningAgent(end) => EndRank(end)
    case AwaitingExits => 1
    case RunSettled => 0
  }

  lemma CleanupRank(s: State)
    ensures Rank(EnterCleanup(s).pc) <= 6 && Rank(Throw(s).pc) <= 6 && Rank(EnterRace(s).pc) <= 7
    ensures Rank(CleanAgent(s).pc) <= 3 && Rank(Finish(s).pc) == 0
  {
  }

  lemma AfterAgentRank(c: Config, s: State)
    ensures Rank(AfterAgent(c, s).pc) <= 9
  {
    CleanupRank(s);
  }

  lemma MainPathLowersRank(c: Config, s: State, o: Outcome)
    requires MainPath(s.pc) && RunEnabled(c, s, o)
    ensures Rank(ApplyRun(c, s, o).pc) < Rank(s.pc)
  {
    CleanupRank(s);
    AfterAgentRank(c, s);
    AfterAgentRank(c, s.(agent := Process(Pending, false)));
    CleanupRank(s.(workload := Process(Pending, false)));
  }

  lemma RaceLowersRank(c: Config, s: State, o: Outcome)
    requires s.pc.Racing? && RaceEnabled(c, s, o)
    ensures Rank(RaceSettled(c, s, o).pc) <= 6
  {
    CleanupRank(s);
    CleanupRank(s.(requestStop := true));
  }

  lemma CleaningLowersRank(c: Config, s: State, o: Outcome)
    requires (s.pc.CleaningWorkload? || s.pc.CleaningAgent? || s.pc.AwaitingExits?) && RunEnabled(c, s, o)
    ensures Rank(ApplyRun(c, s, o).pc) < Rank(s.pc)
  {
    CleanupRank(s);
  }

  lemma RunLowersRank(c: Config, s: State, o: Outcome)
    requires RunEnabled(c, s, o)
    ensures Rank(ApplyRun(c, s, o).pc) < Rank(s.pc)
  {
    if MainPath(s.pc) {
      MainPathLowersRank(c, s, o);
    } else if s.pc.Racing? {
      RaceLowersRank(c, s, o);
    } else {
      CleaningLowersRank(c, s, o);
    }
  }

  function RunSteps(labels: seq<Label>, n: nat): nat
    requires n <= |labels|
  {
    if n == 0 then 0 else RunSteps(labels, n - 1) + if labels[n - 1].RunStep? then 1 else 0
  }

  lemma {:induction false} RunSpendsRank(c: Config, labels: seq<Label>, n: nat)
    requires n <= |labels| && Possible(c, labels, n)
    ensures RunSteps(labels, n) + Rank(StateAt(c, labels, n).value.pc) <= 13
  {
    if n > 0 {
      var s, l := StateAt(c, labels, n - 1).value, labels[n - 1];
      RunSpendsRank(c, labels, n - 1);
      OneFurther(c, labels, n - 1);
      if l.RunStep? {
        RunLowersRank(c, s, l.outcome);
      } else {
        OthersLeavePc(c, s, l);
      }
    }
  }

  /** Until it has settled, `run` can go on or a process it waits for can exit. */
  lemma SomethingMoves(c: Config, s: State)
    requires Runners(c, s) && Inv(s) && !s.pc.RunSettled?
    ensures exists l: Label :: Enabled(c, s, l) && !l.OnStop? && !l.OnCancel?
  {
    if s.pc.Racing? {
      assert Enabled(c, s, if s.agent.exit.Pending? then ProcessExits(Agent, 0) else RunStep(AgentSettles));
    } else if s.pc.AwaitingExits? {
      if !s.agent.Settled() {
        assert Enabled(c, s, ProcessExits(Agent, 0));
      } else if !s.workload.Settled() {
        assert Enabled(c, s, ProcessExits(Workload, 0));
      } else {
        assert Enabled(c, s, RunStep(Done));
      }
    } else if s.pc.CleaningWorkload? || s.pc.CleaningAgent? {
      assert Enabled(c, s, RunStep(if s.pc.end.EndGrace? then TimedOut else Done));
    } else {
      assert Enabled(c, s, RunStep(Done));
    }
  }

  /** However the callbacks fall, `run` takes at most thirteen steps, and where nothing can move
      without a new request it has settled. */
  lemma RunSettles(c: Config, labels: seq<Label>)
    requires Exec(c, Init(), labels).Some?
    ensures RunSteps(labels, |labels|) <= 13
    ensures (forall l: Label :: Enabled(c, Exec(c, Init(), labels).value, l) ==> l.OnStop? || l.OnCancel?)
              ==> Exec(c, Init(), labels).value.pc.RunSettled?
  {
    assert labels[..|labels|] == labels;
    AllPossible(c, labels, |labels|);
    RunSpendsRank(c, labels, |labels|);
    RaceHasItsRunners(c, labels, |labels|);
    Reached(c, labels, |labels|);
    if !Exec(c, Init(), labels).value.pc.RunSettled? {
      SomethingMoves(c, Exec(c, Init(), labels).value);
    }
  }

  // ---- what a stop callback does ----

  predicate Stops(pc: CallPc, p: ProcessId) {
    if p.Agent? then pc.StoppingAgent? else pc.StoppingWorkload?
  }

  /** A process that is being ended exists, and one that is being killed was sent the kill. */
  predicate Ending(x: Process, end: EndPc) {
    x.Process? && (end.EndKilling? ==> x.killTried)
  }

  ghost predicate CallsInv(s: State) {
    forall i :: 0 <= i < |s.calls| ==>
      && (s.calls[i].StoppingWorkload? ==> Ending(s.workload, s.calls[i].end))
      && (s.calls[i].StoppingAgent? ==> Ending(s.agent, s.calls[i].end))
  }

  /** A process later on, whoever acted on it. */
  predicate Lasts(x: Process, y: Process) {
    x.Process? ==> y.Process? && (x.Safe() ==> y.Safe()) && (x.killTried ==> y.killTried)
  }

  lemma StepLasts(c: Config, s: State, l: Label)
    requires Inv(s) && Enabled(c, s, l)
    ensures Lasts(s.agent, Apply(c, s, l).agent) && Lasts(s.workload, Apply(c, s, l).workload)
  {
    match l
    case RunStep(o) => RunMoves(c, s, o);
    case CallStep(i, o) => CallOnlyKills(c, s, i, o);
    case OnCancel => CancelShape(s);
    case _ =>
  }

  /** The step of a callback on its own process. */
  lemma CallGoesOn(s: State, i: nat, o: Outcome, p: ProcessId)
    requires CallsInv(s) && CallEnabled(s, i, o) && Stops(s.calls[i], p)
    ensures var t := ApplyCall(s, i, o);
            && |t.calls| == |s.calls|
            && (if Stops(t.calls[i], p) then Ending(Get(t, p), t.calls[i].end) else Get(t, p).Safe() && Get(t, p).Process?)
            && (p.Workload? && t.calls[i].StoppingAgent? ==> t.calls[i].end.EndInterrupting? && t.agent.Process?)
            && (p.Agent? ==> !t.calls[i].StoppingWorkload?)
  {
    if p.Workload? {
      StopWorkloadGoesOn(s, i, o);
    } else {
      StopAgentGoesOn(s, i, o);
    }
  }

  lemma StopWorkloadGoesOn(s: State, i: nat, o: Outcome)
    requires CallsInv(s) && CallEnabled(s, i, o) && s.calls[i].StoppingWorkload?
    ensures var t := ApplyCall(s, i, o);
            && |t.calls| == |s.calls|
            && (if t.calls[i].StoppingWorkload? then Ending(t.workload, t.calls[i].end)
                else t.workload.Safe() && t.workload.Process?)
            && (t.calls[i].StoppingAgent? ==> t.calls[i].end.EndInterrupting? && t.agent.Process?)
  {
    if !NextEnd(s.workload, s.calls[i].end, o).Continue? {
      EndLeavesSafe(s.workload, s.calls[i].end, o);
    }
  }

  lemma StopAgentGoesOn(s: State, i: nat, o: Outcome)
    requires CallsInv(s) && CallEnabled(s, i, o) && s.calls[i].StoppingAgent?
    ensures var t := ApplyCall(s, i, o);
            && |t.calls| == |s.calls| && !t.calls[i].StoppingWorkload?
            && (if t.calls[i].StoppingAgent? then Ending(t.agent, t.calls[i].end) else t.agent.Safe() && t.agent.Process?)
  {
    if !NextEnd(s.agent, s.calls[i].end, o).Continue? {
      EndLeavesSafe(s.agent, s.calls[i].end, o);
    }
  }

  lemma CancelGoesOn(s: State, i: nat, o: Outcome)
    requires CallEnabled(s, i, o) && (s.calls[i].CancellingAgent? || s.calls[i].CancellingWorkload?)
    ensures var t := ApplyCall(s, i, o);
            |t.calls| == |s.calls| && !t.calls[i].StoppingAgent? && !t.calls[i].StoppingWorkload?
  {
  }

  lemma CallStepCalls(c: Config, s: State, i: nat, o: Outcome)
    requires Inv(s) && CallsInv(s) && CallEnabled(s, i, o)
    ensures CallsInv(ApplyCall(s, i, o))
  {
    var t := ApplyCall(s, i, o);
    CallOnlyKills(c, s, i, o);
    match s.calls[i] {
      case StoppingWorkload(_) => CallGoesOn(s, i, o, Workload);
      case StoppingAgent(_) => CallGoesOn(s, i, o, Agent);
      case _ => CancelGoesOn(s, i, o);
    }
    StepLasts(c, s, CallStep(i, o));
    assert forall j :: 0 <= j < |s.calls| && j != i ==> t.calls[j] == s.calls[j];
  }

  /** `run` and the processes leave the callbacks where they are. */
  lemma RunLeavesCalls(c: Config, s: State, o: Outcome)
    requires RunEnabled(c, s, o)
    ensures ApplyRun(c, s, o).calls == s.calls
  {
    if MainPath(s.pc) {
      MainPathLeavesCalls(c, s, o);
    } else {
      CleanupLeavesCalls(s);
      CleanupLeavesCalls(s.(requestStop := true));
    }
  }

  lemma CleanupLeavesCalls(s: State)
    ensures EnterCleanup(s).calls == Throw(s).calls == EnterRace(s).calls == CleanAgent(s).calls == s.calls
  {
  }

  lemma AfterAgentLeavesCalls(c: Config, s: State)
    ensures AfterAgent(c, s).calls == s.calls
  {
    CleanupLeavesCalls(s);
  }

  lemma MainPathLeavesCalls(c: Config, s: State, o: Outcome)
    requires MainPath(s.pc) && RunEnabled(c, s, o)
    ensures ApplyRun(c, s, o).calls == s.calls
  {
    CleanupLeavesCalls(s);
    AfterAgentLeavesCalls(c, s);
    AfterAgentLeavesCalls(c, s.(agent := Process(Pending, false)));
    CleanupLeavesCalls(s.(workload := Process(Pending, false)));
  }

  /** What a new request adds. */
  lemma RequestAddsCall(s: State)
    ensures var t := BeginStop(s);
            && t.calls == s.calls + [t.calls[|s.calls|]] && |t.calls| == |s.calls| + 1
            && t.agent == s.agent && t.workload == s.workload
            && (t.calls[|s.calls|].StoppingWorkload? <==> s.workload.HandleSet())
            && (t.calls[|s.calls|].StoppingAgent? <==> !s.workload.HandleSet() && s.agent.HandleSet())
            && (t.calls[|s.calls|].StoppingWorkload? || t.calls[|s.calls|].StoppingAgent? ==>
                  t.calls[|s.calls|].end.EndInterrupting?)
    ensures var t := BeginCancel(s);
            && t.calls == s.calls + [t.calls[|s.calls|]] && |t.calls| == |s.calls| + 1
            && !t.calls[|s.calls|].StoppingWorkload? && !t.calls[|s.calls|].StoppingAgent?
  {
  }

  lemma StepKeepsCalls(c: Config, s: State, l: Label)
    requires Inv(s) && CallsInv(s) && Enabled(c, s, l)
    ensures CallsInv(Apply(c, s, l))
  {
    match l
    case CallStep(i, o) => CallStepCalls(c, s, i, o);
    case RunStep(o) => RunLeavesCalls(c, s, o); StepLasts(c, s, l);
    case OnStop => RequestAddsCall(s);
    case OnCancel => RequestAddsCall(s); StepLasts(c, s, l);
    case _ => StepLasts(c, s, l);
  }

  lemma {:induction false} CallsSoFar(c: Config, labels: seq<Label>, n: nat)
    requires n <= |labels| && Possible(c, labels, n)
    ensures CallsInv(StateAt(c, labels, n).value)
  {
    if n > 0 {
      CallsSoFar(c, labels, n - 1);
      OneFurther(c, labels, n - 1);
      Reached(c, labels, n - 1);
      StepKeepsCalls(c, StateAt(c, labels, n - 1).value, labels[n - 1]);
    }
  }

  /** Callback `i` is ending `p`, or `p` has a confirmed exit or was sent a kill. */
  predicate Pursues(s: State, i: nat, p: ProcessId) {
    i < |s.calls| && Get(s, p).Process? && (Stops(s.calls[i], p) || Get(s, p).Safe())
  }

  lemma StepPursues(c: Config, s: State, l: Label, i: nat, p: ProcessId)
    requires Inv(s) && CallsInv(s) && Enabled(c, s, l) && Pursues(s, i, p)
    ensures Pursues(Apply(c, s, l), i, p)
  {
    StepLasts(c, s, l);
    match l
    case CallStep(j, o) => CallPursues(c, s, j, o, i, p);
    case RunStep(o) => RunLeavesCalls(c, s, o);
    case OnStop => RequestAddsCall(s);
    case OnCancel => RequestAddsCall(s);
    case _ =>
  }

  lemma CallPursues(c: Config, s: State, j: nat, o: Outcome, i: nat, p: ProcessId)
    requires Inv(s) && CallsInv(s) && CallEnabled(s, j, o) && Pursues(s, i, p)
    ensures Pursues(ApplyCall(s, j, o), i, p)
  {
    StepLasts(c, s, CallStep(j, o));
    CallOnlyKills(c, s, j, o);
    if i == j && Stops(s.calls[i], p) {
      CallGoesOn(s, i, o, p);
    } else if i != j {
      assert ApplyCall(s, j, o).calls[i] == s.calls[i];
    }
  }

  lemma {:induction false} PursuedFrom(c: Config, labels: seq<Label>, k: nat, n: nat, i: nat, p: ProcessId)
    requires k <= n <= |labels| && Possible(c, labels, n) && Pursues(StateAt(c, labels, k).value, i, p)
    ensures Pursues(StateAt(c, labels, n).value, i, p)
  {
    if k < n {
      PursuedFrom(c, labels, k, n - 1, i, p);
      OneFurther(c, labels, n - 1);
      Reached(c, labels, n - 1);
      CallsSoFar(c, labels, n - 1);
      StepPursues(c, StateAt(c, labels, n - 1).value, labels[n - 1], i, p);
    }
  }

  /** The process a stop turns to: the workload, or the agent if the workload has no handle. */
  function Target(s: State): Option<ProcessId> {
    if s.workload.HandleSet() then Some(Workload) else if s.agent.HandleSet() then Some(Agent) else None
  }

  /** From the stop on, its callback is ending the process it turned to, until that process has
      exited or was sent a kill. */
  lemma StopEndsItsProcess(c: Config, labels: seq<Label>, k: nat, n: nat)
    requires k < n <= |labels| && Possible(c, labels, n) && labels[k] == OnStop
    requires Target(StateAt(c, labels, k).value).Some?
    ensures var s := StateAt(c, labels, k).value;
            Pursues(StateAt(c, labels, n).value, |s.calls|, Target(s).value)
  {
    var s := StateAt(c, labels, k).value;
    OneFurther(c, labels, k);
    RequestAddsCall(s);
    PursuedFrom(c, labels, k + 1, n, |s.calls|, Target(s).value);
  }

  /** If ending the workload throws, because its kill failed or its wait had, the callback turns
      to the agent, provided that it has a handle. */
  lemma ThrownStopTurnsToAgent(c: Config, labels: seq<Label>, k: nat, n: nat, i: nat, o: Outcome)
    requires k < n <= |labels| && Possible(c, labels, n) && labels[k] == CallStep(i, o)
    requires var s := StateAt(c, labels, k).value;
             && i < |s.calls| && s.calls[i].StoppingWorkload? && s.calls[i].end.EndKilling?
             && (o.Fails? || s.calls[i].end.waitError) && s.agent.HandleSet()
    ensures Pursues(StateAt(c, labels, n).value, i, Agent)
  {
    OneFurther(c, labels, k);
    PursuedFrom(c, labels, k + 1, n, i, Agent);
  }

  /** It turns to the agent for no other reason: a workload that was ended leaves the agent to
      the clean-up of the run. */
  lemma OnlyThrownStopTurns(c: Config, labels: seq<Label>, k: nat, i: nat)
    requires k < |labels| && Possible(c, labels, k + 1)
    requires i < |StateAt(c, labels, k).value.calls| && StateAt(c, labels, k).value.calls[i].StoppingWorkload?
    requires i < |StateAt(c, labels, k + 1).value.calls| && StateAt(c, labels, k + 1).value.calls[i].StoppingAgent?
    ensures labels[k].CallStep? && labels[k].call == i
    ensures var end := StateAt(c, labels, k).value.calls[i].end;
            end.EndKilling? && (labels[k].outcome.Fails? || end.waitError)
  {
    var s, l := StateAt(c, labels, k).value, labels[k];
    OneFurther(c, labels, k);
    match l
    case CallStep(j, o) => CallOnlyKills(c, s, j, o);
    case RunStep(o) => RunLeavesCalls(c, s, o);
    case OnStop => RequestAddsCall(s);
    case OnCancel => RequestAddsCall(s);
    case _ =>
  }

  // ---- kills without a cancellation ----

  /** The answer to an interrupt or a grace period that calls for a kill. */
  predicate Refuses(x: Process, end: EndPc, o: Outcome) {
    || (end.EndInterrupting? && o.Fails?)
    || (end.EndGrace? && (o.TimedOut? || (x.Process? && x.exit.WaitFailed?)))
  }

  /** The process refuses to end on an interrupt, by `run` or by a callback. */
  predicate RefusesIn(s: State, l: Label, p: ProcessId) {
    match l
    case RunStep(o) =>
      if p.Agent? then s.pc.CleaningAgent? && Refuses(s.agent, s.pc.end, o)
      else s.pc.CleaningWorkload? && Refuses(s.workload, s.pc.end, o)
    case CallStep(i, o) => i < |s.calls| && Stops(s.calls[i], p) && Refuses(Get(s, p), s.calls[i].end, o)
    case _ => false
  }

  ghost predicate RefusesAt(c: Config, labels: seq<Label>, k: nat, p: ProcessId) {
    k < |labels| && StateAt(c, labels, k).Some? && RefusesIn(StateAt(c, labels, k).value, labels[k], p)
  }

  predicate Tried(x: Process) {
    x.Process? && x.killTried
  }

  /** No cancellation is recorded or under way. */
  ghost predicate Uncancelled(s: State) {
    !s.requestCancel && forall i :: 0 <= i < |s.calls| ==> !s.calls[i].CancellingAgent? && !s.calls[i].CancellingWorkload?
  }

  predicate SameTried(s: State, t: State) {
    Tried(t.agent) == Tried(s.agent) && Tried(t.workload) == Tried(s.workload) && t.requestCancel == s.requestCancel
  }

  lemma CleanupTriesNothing(s: State)
    ensures SameTried(s, EnterCleanup(s)) && SameTried(s, Throw(s)) && SameTried(s, EnterRace(s))
    ensures SameTried(s, CleanAgent(s)) && SameTried(s, Finish(s))
  {
  }

  lemma AfterAgentTriesNothing(c: Config, s: State)
    ensures SameTried(s, AfterAgent(c, s))
  {
    CleanupTriesNothing(s);
  }

  lemma MainPathTriesNothing(c: Config, s: State, o: Outcome)
    requires Inv(s) && !s.requestCancel && (MainPath(s.pc) || s.pc.Racing? || s.pc.AwaitingExits?) && RunEnabled(c, s, o)
    ensures SameTried(s, ApplyRun(c, s, o))
  {
    CleanupTriesNothing(s);
    AfterAgentTriesNothing(c, s);
    AfterAgentTriesNothing(c, s.(agent := Process(Pending, false)));
    CleanupTriesNothing(s.(workload := Process(Pending, false)));
    CleanupTriesNothing(s.(requestStop := true));
  }

  lemma CleaningWorkloadTries(c: Config, s: State, o: Outcome)
    requires Inv(s) && s.pc.CleaningWorkload? && RunEnabled(c, s, o)
    ensures var t := ApplyRun(c, s, o);
            && t.requestCancel == s.requestCancel && Tried(t.agent) == Tried(s.agent)
            && (Tried(t.workload) <==> Tried(s.workload) || Refuses(s.workload, s.pc.end, o))
  {
    CleanupTriesNothing(s);
    CleanupTriesNothing(s.(failed := true));
  }

  lemma CleaningAgentTries(c: Config, s: State, o: Outcome)
    requires Inv(s) && s.pc.CleaningAgent? && RunEnabled(c, s, o)
    ensures var t := ApplyRun(c, s, o);
            && t.requestCancel == s.requestCancel && Tried(t.workload) == Tried(s.workload)
            && (Tried(t.agent) <==> Tried(s.agent) || Refuses(s.agent, s.pc.end, o))
  {
    CleanupTriesNothing(s);
    CleanupTriesNothing(s.(failed := true));
  }

  lemma CallTries(s: State, i: nat, o: Outcome)
    requires CallsInv(s) && CallEnabled(s, i, o) && (s.calls[i].StoppingAgent? || s.calls[i].StoppingWorkload?)
    ensures var t := ApplyCall(s, i, o);
            && t.requestCancel == s.requestCancel
            && (Tried(t.agent) <==> Tried(s.agent) || RefusesIn(s, CallStep(i, o), Agent))
            && (Tried(t.workload) <==> Tried(s.workload) || RefusesIn(s, CallStep(i, o), Workload))
            && |t.calls| == |s.calls| && !t.calls[i].CancellingAgent? && !t.calls[i].CancellingWorkload?
            && forall j :: 0 <= j < |s.calls| && j != i ==> t.calls[j] == s.calls[j]
  {
  }

  lemma StepTries(c: Config, s: State, l: Label)
    requires Inv(s) && CallsInv(s) && Uncancelled(s) && Enabled(c, s, l) && l != OnCancel
    ensures var t := Apply(c, s, l);
            && Uncancelled(t)
            && (Tried(t.agent) <==> Tried(s.agent) || RefusesIn(s, l, Agent))
            && (Tried(t.workload) <==> Tried(s.workload) || RefusesIn(s, l, Workload))
  {
    match l
    case CallStep(i, o) => CallTries(s, i, o);
    case RunStep(o) =>
      RunLeavesCalls(c, s, o);
      if s.pc.CleaningAgent? {
        CleaningAgentTries(c, s, o);
      } else if s.pc.CleaningWorkload? {
        CleaningWorkloadTries(c, s, o);
      } else {
        MainPathTriesNothing(c, s, o);
      }
    case OnStop => RequestAddsCall(s);
    case _ =>
  }

  /** Without a cancellation, a process is sent a kill exactly if it refused to end: its interrupt
      failed, or its grace period ran out, or the wait for it failed. */
  lemma {:induction false} KilledExactlyWhenRefusing(c: Config, labels: seq<Label>, n: nat, p: ProcessId)
    requires n <= |labels| && Possible(c, labels, n) && forall k :: 0 <= k < n ==> labels[k] != OnCancel
    ensures Uncancelled(StateAt(c, labels, n).value)
    ensures Tried(Get(StateAt(c, labels, n).value, p)) <==> exists k: nat :: k < n && RefusesAt(c, labels, k, p)
  {
    if n > 0 {
      var s, l := StateAt(c, labels, n - 1).value, labels[n - 1];
      KilledExactlyWhenRefusing(c, labels, n - 1, p);
      OneFurther(c, labels, n - 1);
      Reached(c, labels, n - 1);
      CallsSoFar(c, labels, n - 1);
      StepTries(c, s, l);
      assert RefusesAt(c, labels, n - 1, p) <==> RefusesIn(s, l, p);
    }
  }
}
