/** What every interleaving of the JVM integration leaves behind when `run` settles. */
module JvmSafety {
  import opened Wrappers
  import opened Jvm

  /** Some `onCancel` has signalled the agent and will turn to the workload next. */
  predicate CancelPending(s: State) {
    exists i :: 0 <= i < |s.calls| && s.calls[i].CancellingAgent?
  }

  predicate PhaseInv(s: State) {
    match s.pc
    case Deploying => s.agent.Absent? && s.workload.Absent?
    case Preparing => s.agent.Absent? && s.workload.Absent?
    case StartingAgent => s.agent.Absent? && s.workload.Absent?
    case KillingAgent => s.agent.Process? && s.workload.Absent?
    case StartingWorkload => s.agent.Process? && s.workload.Absent?
    case AwaitingExits => s.requestCancel
    case CleaningWorkload(end) => s.workload.Process? && (end.EndKilling? ==> s.workload.killTried)
    case CleaningAgent(end) =>
      s.agent.Process? && s.workload.Safe() && (end.EndKilling? ==> s.agent.killTried)
    case _ => true
  }

  /** The collection tracker is open exactly between its start and the end of `run`. */
  predicate TrackerInv(s: State) {
    match s.pc
    case Deploying => s.trackerStarts == 0 && s.trackerEnds == 0
    case Preparing => s.trackerStarts == 0 && s.trackerEnds == 0
    case RunSettled => s.trackerStarts == s.trackerEnds <= 1
    case _ => s.trackerStarts == 1 && s.trackerEnds == 0
  }

  /** A recorded cancellation has reached every process that is up, or is about to. */
  predicate CancelInv(s: State) {
    s.requestCancel ==> s.agent.Safe() && (s.workload.Safe() || CancelPending(s))
  }

  predicate HasReason(s: State) {
    || s.failed || s.requestStop || s.requestCancel
    || (s.workload.Process? && s.workload.exit == Exited(0))
  }

  /** `run` gives up waiting only for a reason. */
  predicate ReasonInv(s: State) {
    s.pc.AwaitingExits? || s.pc.CleaningWorkload? || s.pc.CleaningAgent? || s.pc.RunSettled? ==> HasReason(s)
  }

  predicate Inv(s: State) {
    PhaseInv(s) && TrackerInv(s) && CancelInv(s) && ReasonInv(s)
  }

  // ---- one step ----

  lemma CallsKeepPending(s: State, t: State, i: nat)
    requires i < |s.calls| == |t.calls| && CancelPending(s)
    requires forall j :: 0 <= j < |s.calls| && j != i ==> t.calls[j] == s.calls[j]
    requires s.calls[i].CancellingAgent? ==> t.workload.Safe()
    ensures t.workload.Safe() || CancelPending(t)
  {
    var j :| 0 <= j < |s.calls| && s.calls[j].CancellingAgent?;
    assert j != i ==> t.calls[j].CancellingAgent?;
  }

  lemma AppendKeepsPending(s: State, t: State)
    requires CancelPending(s) && s.calls <= t.calls
    ensures CancelPending(t)
  {
    var j :| 0 <= j < |s.calls| && s.calls[j].CancellingAgent?;
    assert t.calls[j].CancellingAgent?;
  }

  /** A callback begins: a request, a call, and perhaps kill attempts. */
  lemma StopKeepsInv(c: Config, s: State)
    requires Inv(s)
    ensures Inv(BeginStop(s))
  {
    var t := BeginStop(s);
    assert t == s.(requestStop := true, calls := t.calls) && s.calls <= t.calls;
    if CancelPending(s) {
      AppendKeepsPending(s, t);
    }
  }

  lemma CancelShape(s: State)
    ensures var t := BeginCancel(s);
            && t == s.(requestCancel := true, agent := t.agent, workload := t.workload, calls := t.calls)
            && SameButKilled(s.agent, t.agent) && SameButKilled(s.workload, t.workload)
            && s.calls <= t.calls && t.agent.Safe() && (t.workload.Safe() || CancelPending(t))
  {
    var t := BeginCancel(s);
    if s.agent.HandleSet() {
      assert t.calls[|s.calls|].CancellingAgent?;
    }
  }

  lemma CancelKeepsInv(c: Config, s: State)
    requires Inv(s)
    ensures Inv(BeginCancel(s))
  {
    CancelShape(s);
  }

  /** The same process, perhaps with a kill attempted since. */
  predicate SameButKilled(x: Process, y: Process) {
    x == y || (x.Process? && y == x.(killTried := true))
  }

  /** All a callback does to the shared state is attempt kills. */
  predicate OnlyKills(s: State, t: State, i: nat)
    requires i < |s.calls|
  {
    && t == s.(agent := t.agent, workload := t.workload, calls := t.calls)
    && SameButKilled(s.agent, t.agent) && SameButKilled(s.workload, t.workload)
    && |t.calls| == |s.calls| && t.calls == s.calls[i := t.calls[i]]
    && (s.calls[i].CancellingAgent? ==> t.workload.Safe())
  }

  lemma CallOnlyKills(c: Config, s: State, i: nat, o: Outcome)
    requires CallEnabled(s, i, o)
    ensures OnlyKills(s, ApplyCall(s, i, o), i)
  {
    match s.calls[i]
    case StoppingWorkload(_) => StopWorkloadOnlyKills(s, i, o);
    case StoppingAgent(_) => StopAgentOnlyKills(s, i, o);
    case CancellingAgent => CancelOnlyKills(s, i, o);
    case CancellingWorkload => CancelOnlyKills(s, i, o);
  }

  lemma StopWorkloadOnlyKills(s: State, i: nat, o: Outcome)
    requires CallEnabled(s, i, o) && s.calls[i].StoppingWorkload?
    ensures OnlyKills(s, ApplyCall(s, i, o), i)
  {
  }

  lemma StopAgentOnlyKills(s: State, i: nat, o: Outcome)
    requires CallEnabled(s, i, o) && s.calls[i].StoppingAgent?
    ensures OnlyKills(s, ApplyCall(s, i, o), i)
  {
  }

  lemma CancelOnlyKills(s: State, i: nat, o: Outcome)
    requires CallEnabled(s, i, o) && (s.calls[i].CancellingAgent? || s.calls[i].CancellingWorkload?)
    ensures OnlyKills(s, ApplyCall(s, i, o), i)
  {
  }

  lemma CallKeepsInv(c: Config, s: State, i: nat, o: Outcome)
    requires Inv(s) && CallEnabled(s, i, o)
    ensures Inv(ApplyCall(s, i, o))
  {
    var t := ApplyCall(s, i, o);
    CallOnlyKills(c, s, i, o);
    if CancelPending(s) {
      CallsKeepPending(s, t, i);
    }
  }

  /** A process later on: a settled exit stays as it is, and a kill attempt is not forgotten. */
  predicate Further(x: Process, y: Process) {
    && (x.Absent? ==> y.Absent?)
    && (x.Process? ==> y.Process? && (x.killTried ==> y.killTried) && (!x.exit.Pending? ==> y.exit == x.exit))
  }

  lemma ProcessesMoveOn(s: State, t: State)
    requires Inv(s) && t == s.(agent := t.agent, workload := t.workload)
    requires Further(s.agent, t.agent) && Further(s.workload, t.workload)
    ensures Inv(t)
  {
    if CancelPending(s) {
      AppendKeepsPending(s, t);
    }
  }

  lemma ExitKeepsInv(c: Config, s: State, l: Label)
    requires Inv(s) && (l.ProcessExits? || l.ProcessWaitFails?) && Enabled(c, s, l)
    ensures Inv(Apply(c, s, l))
  {
    ProcessesMoveOn(s, Apply(c, s, l));
  }

  /** What entering the clean-up needs. */
  lemma CleanupKeepsInv(s: State)
    requires CancelInv(s) && HasReason(s) && s.trackerStarts == 1 && s.trackerEnds == 0
    ensures Inv(EnterCleanup(s))
  {
    if CancelPending(s) {
      AppendKeepsPending(s, EnterCleanup(s));
    }
  }

  lemma ThrowKeepsInv(s: State)
    requires CancelInv(s) && s.trackerStarts == 1 && s.trackerEnds == 0
    ensures Inv(Throw(s))
  {
    var s1 := s.(failed := true);
    if CancelPending(s) { AppendKeepsPending(s, s1); }
    CleanupKeepsInv(s1);
  }

  lemma EnterRaceKeepsInv(s: State)
    requires CancelInv(s) && s.trackerStarts == 1 && s.trackerEnds == 0
    ensures Inv(EnterRace(s))
  {
    if s.requestStop || s.requestCancel {
      CleanupKeepsInv(s);
    }
  }

  lemma AfterAgentKeepsInv(c: Config, s: State)
    requires CancelInv(s) && s.trackerStarts == 1 && s.trackerEnds == 0
    requires s.agent.Process? && s.workload.Absent?
    ensures Inv(AfterAgent(c, s))
  {
    if s.requestStop || s.requestCancel {
      CleanupKeepsInv(s);
    }
  }

  lemma LaunchesKeepInv(c: Config, s: State, o: Outcome)
    requires Inv(s) && (s.pc.StartingAgent? || s.pc.StartingWorkload?) && RunEnabled(c, s, o)
    ensures Inv(ApplyRun(c, s, o))
  {
    if o.Fails? {
      ThrowKeepsInv(s);
    } else if s.pc.StartingAgent? {
      var s1 := s.(agent := Process(Pending, false));
      if !s.requestCancel { AfterAgentKeepsInv(c, s1); }
    } else {
      var s1 := s.(workload := Process(Pending, false));
      if !s.requestCancel { EnterRaceKeepsInv(s1); }
    }
  }

  lemma KillsKeepInv(c: Config, s: State, o: Outcome)
    requires Inv(s) && (s.pc.KillingAgent? || s.pc.KillingWorkload?) && RunEnabled(c, s, o)
    ensures Inv(ApplyRun(c, s, o))
  {
    ThrowKeepsInv(s);
    EnterRaceKeepsInv(s);
    if s.pc.KillingAgent? {
      AfterAgentKeepsInv(c, s);
    }
  }

  lemma RaceKeepsInv(c: Config, s: State, o: Outcome)
    requires Inv(s) && s.pc.Racing? && RaceEnabled(c, s, o)
    ensures Inv(RaceSettled(c, s, o))
  {
    ThrowKeepsInv(s);
    if HasReason(s) {
      CleanupKeepsInv(s);
    }
    var s1 := s.(requestStop := true);
    if CancelPending(s) { AppendKeepsPending(s, s1); }
    CleanupKeepsInv(s1);
  }

  lemma CleanAgentKeepsInv(s: State)
    requires CancelInv(s) && HasReason(s) && s.workload.Safe() && s.trackerStarts == 1 && s.trackerEnds == 0
    ensures Inv(CleanAgent(s))
  {
  }

  /** `endProcess` returns with a confirmed exit or after a kill attempt; it throws only
      after a kill attempt. */
  lemma EndLeavesSafe(x: Process, pc: EndPc, o: Outcome)
    requires EndEnabled(x, pc, o) && !NextEnd(x, pc, o).Continue?
    requires pc.EndKilling? && x.Process? ==> x.killTried
    ensures x.Safe()
    ensures NextEnd(x, pc, o).EndThrows? ==> pc.EndKilling?
  {
  }

  lemma CleaningKeepsInv(c: Config, s: State, o: Outcome)
    requires Inv(s) && (s.pc.CleaningWorkload? || s.pc.CleaningAgent?) && RunEnabled(c, s, o)
    ensures Inv(ApplyRun(c, s, o))
  {
    if s.pc.CleaningWorkload? {
      CleaningWorkloadKeepsInv(c, s, o);
    } else {
      CleaningAgentKeepsInv(c, s, o);
    }
  }

  lemma CleaningWorkloadKeepsInv(c: Config, s: State, o: Outcome)
    requires Inv(s) && s.pc.CleaningWorkload? && RunEnabled(c, s, o)
    ensures Inv(ApplyRun(c, s, o))
  {
    if !NextEnd(s.workload, s.pc.end, o).Continue? {
      EndLeavesSafe(s.workload, s.pc.end, o);
      CleanAgentKeepsInv(s);
    }
  }

  lemma CleaningAgentKeepsInv(c: Config, s: State, o: Outcome)
    requires Inv(s) && s.pc.CleaningAgent? && RunEnabled(c, s, o)
    ensures Inv(ApplyRun(c, s, o))
  {
    if !NextEnd(s.agent, s.pc.end, o).Continue? {
      EndLeavesSafe(s.agent, s.pc.end, o);
    }
  }

  lemma RunKeepsInv(c: Config, s: State, o: Outcome)
    requires Inv(s) && RunEnabled(c, s, o)
    ensures Inv(ApplyRun(c, s, o))
  {
    match s.pc
    case Deploying =>
    case Preparing =>
    case StartingAgent => LaunchesKeepInv(c, s, o);
    case KillingAgent => KillsKeepInv(c, s, o);
    case StartingWorkload => LaunchesKeepInv(c, s, o);
    case KillingWorkload => KillsKeepInv(c, s, o);
    case Racing => RaceKeepsInv(c, s, o);
    case CleaningWorkload(_) => CleaningKeepsInv(c, s, o);
    case CleaningAgent(_) => CleaningKeepsInv(c, s, o);
    case AwaitingExits =>
  }

  lemma StepKeepsInv(c: Config, s: State, l: Label)
    requires Inv(s) && Enabled(c, s, l)
    ensures Inv(Apply(c, s, l))
  {
    match l
    case ProcessExits(_, _) => ExitKeepsInv(c, s, l);
    case ProcessWaitFails(_) => ExitKeepsInv(c, s, l);
    case OnStop => StopKeepsInv(c, s);
    case OnCancel => CancelKeepsInv(c, s);
    case RunStep(o) => RunKeepsInv(c, s, o);
    case CallStep(i, o) => CallKeepsInv(c, s, i, o);
  }

  lemma {:induction false} ExecKeepsInv(c: Config, s: State, labels: seq<Label>)
    requires Inv(s) && Exec(c, s, labels).Some?
    ensures Inv(Exec(c, s, labels).value)
    decreases |labels|
  {
    if labels != [] {
      StepKeepsInv(c, s, labels[0]);
      ExecKeepsInv(c, Apply(c, s, labels[0]), labels[1..]);
    }
  }

  // ---- when run settles ----

  predicate Settles(c: Config, s: State, l: Label) {
    Enabled(c, s, l) && !s.pc.RunSettled? && Apply(c, s, l).pc.RunSettled?
  }

  /** The branch that fails: `endProcess` on the workload throws after the workload's exit
      was confirmed, so reporting it dereferences the cleared handle, and the agent, whose
      handle is still set and unsignalled, is skipped. */
  predicate SkipsAgent(s: State, l: Label) {
    && l.RunStep? && s.pc.CleaningWorkload? && EndEnabled(s.workload, s.pc.end, l.outcome)
    && NextEnd(s.workload, s.pc.end, l.outcome).EndThrows?
    && !s.workload.HandleSet()
    && s.agent.HandleSet() && !s.agent.killTried
  }

  predicate BeforeCleanup(s: State) {
    !s.pc.AwaitingExits? && !s.pc.CleaningWorkload? && !s.pc.CleaningAgent? && !s.pc.RunSettled?
  }

  /** The other moment at which a process can be unsignalled: a cancelled run stops waiting
      because waiting for the workload failed. */
  predicate AbandonsWait(s: State) {
    s.pc.AwaitingExits? && s.workload.Process? && s.workload.exit.WaitFailed? && !s.workload.killTried
  }

  /** When `run` settles, every process it started has a confirmed exit or has been sent a
      kill, exactly if the step takes neither of the two failing branches. In the second of
      them an `onCancel` is about to kill the workload; in the first nobody is. */
  lemma NothingLeftUnsignalled(c: Config, labels: seq<Label>, s: State, l: Label)
    requires Exec(c, Init(), labels) == Some(s) && Settles(c, s, l)
    ensures Apply(c, s, l).agent.Safe() && Apply(c, s, l).workload.Safe() <==>
              !SkipsAgent(s, l) && !AbandonsWait(s)
    ensures AbandonsWait(s) ==> CancelPending(Apply(c, s, l)) && Apply(c, s, l).agent.Safe()
  {
    ExecKeepsInv(c, Init(), labels);
    StepKeepsInv(c, s, l);
    SettlesByRun(c, s, l);
    if !SkipsAgent(s, l) {
      SettlesSafely(c, s, l);
    }
    if !s.pc.AwaitingExits? {
      WorkloadSafeOutsideCancel(c, s, l);
    }
  }

  lemma SettlesSafely(c: Config, s: State, l: Label)
    requires Inv(s) && Settles(c, s, l) && !SkipsAgent(s, l)
    ensures var t := Apply(c, s, l); t.agent.Safe() && (t.workload.Safe() || CancelPending(t))
  {
    var t := Apply(c, s, l);
    SettlesByRun(c, s, l);
    if s.pc.CleaningWorkload? {
      EndLeavesSafe(s.workload, s.pc.end, l.outcome);
    } else if s.pc.CleaningAgent? {
      EndLeavesSafe(s.agent, s.pc.end, l.outcome);
    } else if s.pc.AwaitingExits? {
      if CancelPending(s) { AppendKeepsPending(s, t); }
    } else {
      SettlesEarly(c, s, l);
    }
  }

  lemma SettlesByRun(c: Config, s: State, l: Label)
    requires Settles(c, s, l)
    ensures l.RunStep?
    ensures s.pc.CleaningWorkload? ==> !NextEnd(s.workload, s.pc.end, l.outcome).Continue?
    ensures s.pc.CleaningAgent? ==> !NextEnd(s.agent, s.pc.end, l.outcome).Continue?
  {
    if l.CallStep? {
      CallOnlyKills(c, s, l.call, l.outcome);
    }
  }

  /** Settling straight from the main path: nothing was started, or nothing is running. */
  lemma SettlesEarly(c: Config, s: State, l: Label)
    requires Inv(s) && Settles(c, s, l) && l.RunStep? && BeforeCleanup(s)
    ensures Apply(c, s, l).agent.Safe() && Apply(c, s, l).workload.Safe()
  {
    match s.pc
    case Deploying =>
    case Preparing =>
    case StartingAgent => StartSettlesSafe(c, s, l.outcome);
    case StartingWorkload => StartSettlesSafe(c, s, l.outcome);
    case KillingAgent => KillSettlesSafe(c, s, l.outcome);
    case KillingWorkload => KillSettlesSafe(c, s, l.outcome);
    case Racing => RaceSettlesSafe(c, s, l.outcome);
  }

  predicate BothSafe(s: State) {
    s.agent.Safe() && s.workload.Safe()
  }

  /** A clean-up that settles at once has nothing to end. */
  lemma CleanupSettlesSafe(s: State)
    ensures EnterCleanup(s).pc.RunSettled? ==> BothSafe(EnterCleanup(s))
    ensures Throw(s).pc.RunSettled? ==> BothSafe(Throw(s))
    ensures EnterRace(s).pc.RunSettled? ==> BothSafe(EnterRace(s))
  {
  }

  lemma AfterAgentSettlesSafe(c: Config, s: State)
    ensures AfterAgent(c, s).pc.RunSettled? ==> BothSafe(AfterAgent(c, s))
  {
    CleanupSettlesSafe(s);
  }

  lemma StartSettlesSafe(c: Config, s: State, o: Outcome)
    requires (s.pc.StartingAgent? || s.pc.StartingWorkload?) && RunEnabled(c, s, o)
    ensures ApplyRun(c, s, o).pc.RunSettled? ==> BothSafe(ApplyRun(c, s, o))
  {
    CleanupSettlesSafe(s);
    AfterAgentSettlesSafe(c, s.(agent := Process(Pending, false)));
    CleanupSettlesSafe(s.(workload := Process(Pending, false)));
  }

  lemma KillSettlesSafe(c: Config, s: State, o: Outcome)
    requires (s.pc.KillingAgent? || s.pc.KillingWorkload?) && RunEnabled(c, s, o)
    ensures ApplyRun(c, s, o).pc.RunSettled? ==> BothSafe(ApplyRun(c, s, o))
  {
    CleanupSettlesSafe(s);
    AfterAgentSettlesSafe(c, s);
  }

  lemma RaceSettlesSafe(c: Config, s: State, o: Outcome)
    requires s.pc.Racing? && RaceEnabled(c, s, o)
    ensures RaceSettled(c, s, o).pc.RunSettled? ==> BothSafe(RaceSettled(c, s, o))
  {
    CleanupSettlesSafe(s);
    CleanupSettlesSafe(s.(requestStop := true));
  }

  lemma WorkloadSafeOutsideCancel(c: Config, s: State, l: Label)
    requires Inv(s) && Settles(c, s, l) && !s.pc.AwaitingExits?
    ensures Apply(c, s, l).workload.Safe()
  {
    SettlesByRun(c, s, l);
    if s.pc.CleaningWorkload? {
      EndLeavesSafe(s.workload, s.pc.end, l.outcome);
    } else if BeforeCleanup(s) {
      SettlesEarly(c, s, l);
    }
  }

  /** A pending `onCancel` does attempt that kill, however its kill of the agent ends. */
  lemma PendingCancelKillsWorkload(c: Config, s: State, i: nat, o: Outcome)
    requires CallEnabled(s, i, o) && s.calls[i].CancellingAgent?
    ensures Apply(c, s, CallStep(i, o)).workload.Safe()
  {
  }

  // ---- what a step of `run` does to the processes ----

  predicate SameProcesses(s: State, t: State) {
    t.agent == s.agent && t.workload == s.workload && t.trackerStarts == s.trackerStarts
  }

  lemma CleanupKeepsProcesses(s: State)
    ensures SameProcesses(s, EnterCleanup(s)) && SameProcesses(s, Throw(s)) && SameProcesses(s, EnterRace(s))
    ensures SameProcesses(s, CleanAgent(s)) && SameProcesses(s, Finish(s))
  {
  }

  lemma AfterAgentKeepsProcesses(c: Config, s: State)
    ensures SameProcesses(s, AfterAgent(c, s))
  {
    CleanupKeepsProcesses(s);
  }

  /** A step of `run` starts a process that it awaits the start of, and otherwise attempts kills
      at most. */
  predicate RunMoved(s: State, t: State) {
    && t.trackerStarts >= s.trackerStarts
    && (SameButKilled(s.agent, t.agent) || (s.pc.StartingAgent? && t.agent.Process? && t.agent.exit.Pending?))
    && (SameButKilled(s.workload, t.workload)
        || (s.pc.StartingWorkload? && t.workload.Process? && t.workload.exit.Pending?))
  }

  lemma StartMoves(c: Config, s: State, o: Outcome)
    requires (s.pc.StartingAgent? || s.pc.StartingWorkload?) && RunEnabled(c, s, o)
    ensures RunMoved(s, ApplyRun(c, s, o))
  {
    CleanupKeepsProcesses(s);
    AfterAgentKeepsProcesses(c, s.(agent := Process(Pending, false)));
    CleanupKeepsProcesses(s.(workload := Process(Pending, false)));
  }

  lemma EarlyMoves(c: Config, s: State, o: Outcome)
    requires (s.pc.Deploying? || s.pc.Preparing? || s.pc.KillingAgent? || s.pc.KillingWorkload?) && RunEnabled(c, s, o)
    ensures RunMoved(s, ApplyRun(c, s, o))
  {
    CleanupKeepsProcesses(s);
    AfterAgentKeepsProcesses(c, s);
  }

  lemma RaceMoves(c: Config, s: State, o: Outcome)
    requires s.pc.Racing? && RunEnabled(c, s, o)
    ensures RunMoved(s, ApplyRun(c, s, o))
  {
    CleanupKeepsProcesses(s);
    CleanupKeepsProcesses(s.(requestStop := true));
  }

  lemma CleaningWorkloadMoves(c: Config, s: State, o: Outcome)
    requires s.pc.CleaningWorkload? && RunEnabled(c, s, o)
    ensures RunMoved(s, ApplyRun(c, s, o))
  {
    CleanupKeepsProcesses(s);
    CleanupKeepsProcesses(s.(failed := true));
  }

  lemma CleaningAgentMoves(c: Config, s: State, o: Outcome)
    requires (s.pc.CleaningAgent? || s.pc.AwaitingExits?) && RunEnabled(c, s, o)
    ensures RunMoved(s, ApplyRun(c, s, o))
  {
    CleanupKeepsProcesses(s);
    CleanupKeepsProcesses(s.(failed := true));
  }

  lemma RunMoves(c: Config, s: State, o: Outcome)
    requires RunEnabled(c, s, o)
    ensures RunMoved(s, ApplyRun(c, s, o))
  {
    match s.pc
    case StartingAgent => StartMoves(c, s, o);
    case StartingWorkload => StartMoves(c, s, o);
    case Racing => RaceMoves(c, s, o);
    case CleaningWorkload(_) => CleaningWorkloadMoves(c, s, o);
    case CleaningAgent(_) => CleaningAgentMoves(c, s, o);
    case AwaitingExits => CleaningAgentMoves(c, s, o);
    case _ => EarlyMoves(c, s, o);
  }

  // ---- runs in which no kill and no wait fails ----

  /** The step answers a `kill()` with a failure. */
  predicate KillFails(s: State, l: Label) {
    match l
    case RunStep(Fails) => s.pc.KillingAgent? || s.pc.KillingWorkload?
                           || ((s.pc.CleaningWorkload? || s.pc.CleaningAgent?) && s.pc.end.EndKilling?)
    case CallStep(i, Fails) => i < |s.calls|
                               && (s.calls[i].CancellingAgent? || s.calls[i].CancellingWorkload?
                                   || ((s.calls[i].StoppingWorkload? || s.calls[i].StoppingAgent?)
                                       && s.calls[i].end.EndKilling?))
    case _ => false
  }

  /** Every `kill()` in the run succeeds. */
  predicate KillsSucceed(c: Config, s: State, labels: seq<Label>)
    decreases |labels|
  {
    labels == []
    || (Enabled(c, s, labels[0]) && !KillFails(s, labels[0])
        && KillsSucceed(c, Apply(c, s, labels[0]), labels[1..]))
  }

  /** Every wait for a process in the run succeeds. */
  predicate WaitsSucceed(labels: seq<Label>) {
    forall i :: 0 <= i < |labels| ==> !labels[i].ProcessWaitFails?
  }

  /** Such a run has seen no failed wait, and once settled it leaves nothing behind. */
  predicate SmoothInv(s: State) {
    && (s.agent.Process? ==> !s.agent.exit.WaitFailed?) && (s.workload.Process? ==> !s.workload.exit.WaitFailed?)
    && (s.pc.CleaningWorkload? && s.pc.end.EndKilling? ==> !s.pc.end.waitError)
    && (s.pc.RunSettled? ==> BothSafe(s))
  }

  /** What a step does not do to the processes unless it is a failed wait. */
  predicate NoWaitFailed(s: State) {
    (s.agent.Process? ==> !s.agent.exit.WaitFailed?) && (s.workload.Process? ==> !s.workload.exit.WaitFailed?)
  }

  lemma StepFailsNoWait(c: Config, s: State, l: Label)
    requires NoWaitFailed(s) && Enabled(c, s, l) && !l.ProcessWaitFails?
    ensures NoWaitFailed(Apply(c, s, l))
  {
    match l
    case RunStep(o) => RunMoves(c, s, o);
    case CallStep(i, o) => CallOnlyKills(c, s, i, o);
    case OnCancel => CancelShape(s);
    case _ =>
  }

  /** The grace period ends in a kill that carries no failed wait. */
  lemma EndCarriesNoWaitError(c: Config, s: State, o: Outcome)
    requires SmoothInv(s) && RunEnabled(c, s, o) && s.pc.CleaningWorkload?
    ensures var t := ApplyRun(c, s, o); t.pc.CleaningWorkload? && t.pc.end.EndKilling? ==> !t.pc.end.waitError
  {
  }

  lemma EntersWithoutKill(c: Config, s: State, o: Outcome)
    requires RunEnabled(c, s, o) && !s.pc.CleaningWorkload?
    ensures var t := ApplyRun(c, s, o); t.pc.CleaningWorkload? ==> !t.pc.end.EndKilling?
  {
  }

  /** A process left unsignalled needs a failed kill, or a failed wait. */
  lemma SmoothSettles(c: Config, s: State, l: Label)
    requires Inv(s) && SmoothInv(s) && Settles(c, s, l) && !KillFails(s, l)
    ensures BothSafe(Apply(c, s, l))
  {
    SettlesByRun(c, s, l);
    assert !SkipsAgent(s, l);
    SettlesSafely(c, s, l);
    if s.pc.AwaitingExits? {
      assert s.workload.Settled() && Apply(c, s, l).workload == s.workload;
    } else {
      WorkloadSafeOutsideCancel(c, s, l);
    }
  }

  /** What happened to a process is not undone. */
  lemma SettledStaysSafe(c: Config, s: State, l: Label)
    requires s.pc.RunSettled? && BothSafe(s) && Enabled(c, s, l)
    ensures Apply(c, s, l).pc.RunSettled? && BothSafe(Apply(c, s, l))
  {
    match l
    case CallStep(i, o) => CallOnlyKills(c, s, i, o);
    case OnCancel => CancelShape(s);
    case _ =>
  }

  lemma StepKeepsSmooth(c: Config, s: State, l: Label)
    requires Inv(s) && SmoothInv(s) && Enabled(c, s, l) && !l.ProcessWaitFails? && !KillFails(s, l)
    ensures SmoothInv(Apply(c, s, l))
  {
    StepFailsNoWait(c, s, l);
    if s.pc.RunSettled? {
      SettledStaysSafe(c, s, l);
    } else if Settles(c, s, l) {
      SmoothSettles(c, s, l);
    } else if l.RunStep? {
      if s.pc.CleaningWorkload? {
        EndCarriesNoWaitError(c, s, l.outcome);
      } else {
        EntersWithoutKill(c, s, l.outcome);
      }
    } else {
      OthersLeavePc(c, s, l);
    }
  }

  lemma OthersLeavePc(c: Config, s: State, l: Label)
    requires Enabled(c, s, l) && !l.RunStep?
    ensures Apply(c, s, l).pc == s.pc
  {
    match l
    case CallStep(i, o) => CallOnlyKills(c, s, i, o);
    case OnCancel => CancelShape(s);
    case _ =>
  }

  lemma {:induction false} SmoothExec(c: Config, s: State, labels: seq<Label>)
    requires Inv(s) && SmoothInv(s) && Exec(c, s, labels).Some?
    requires KillsSucceed(c, s, labels) && WaitsSucceed(labels)
    ensures SmoothInv(Exec(c, s, labels).value)
    decreases |labels|
  {
    if labels != [] {
      StepKeepsInv(c, s, labels[0]);
      StepKeepsSmooth(c, s, labels[0]);
      SmoothExec(c, Apply(c, s, labels[0]), labels[1..]);
    }
  }

  /** If no kill and no wait for a process fails, then once the run has settled every process
      it started has a confirmed exit or has been sent a kill, however the callbacks fell. */
  lemma SmoothRunsLeaveNothing(c: Config, labels: seq<Label>)
    requires Exec(c, Init(), labels).Some? && KillsSucceed(c, Init(), labels) && WaitsSucceed(labels)
    ensures Exec(c, Init(), labels).value.pc.RunSettled? ==> BothSafe(Exec(c, Init(), labels).value)
  {
    SmoothExec(c, Init(), labels);
  }

  /** A kill in the clean-up that carries a failed wait means that the wait has failed. */
  predicate WaitErrorInv(s: State) {
    s.pc.CleaningWorkload? && s.pc.end.EndKilling? && s.pc.end.waitError ==>
      s.workload.Process? && s.workload.exit.WaitFailed?
  }

  lemma WaitErrorStays(c: Config, s: State, l: Label)
    requires Inv(s) && WaitErrorInv(s) && Enabled(c, s, l)
    ensures WaitErrorInv(Apply(c, s, l))
  {
    if l.RunStep? {
      if s.pc.CleaningWorkload? {
        KillCarriesItsWait(c, s, l.outcome);
      } else {
        EntersWithoutKill(c, s, l.outcome);
      }
    } else {
      OthersLeavePc(c, s, l);
      OthersMoveOn(c, s, l);
    }
  }

  lemma KillCarriesItsWait(c: Config, s: State, o: Outcome)
    requires Inv(s) && RunEnabled(c, s, o) && s.pc.CleaningWorkload?
    ensures WaitErrorInv(ApplyRun(c, s, o))
  {
  }

  lemma OthersMoveOn(c: Config, s: State, l: Label)
    requires Enabled(c, s, l) && !l.RunStep?
    ensures Further(s.agent, Apply(c, s, l).agent) && Further(s.workload, Apply(c, s, l).workload)
  {
    match l
    case CallStep(i, o) => CallOnlyKills(c, s, i, o);
    case OnCancel => CancelShape(s);
    case _ =>
  }

  lemma {:induction false} WaitErrorExec(c: Config, s: State, labels: seq<Label>)
    requires Inv(s) && WaitErrorInv(s) && Exec(c, s, labels).Some?
    ensures WaitErrorInv(Exec(c, s, labels).value)
    decreases |labels|
  {
    if labels != [] {
      StepKeepsInv(c, s, labels[0]);
      WaitErrorStays(c, s, labels[0]);
      WaitErrorExec(c, Apply(c, s, labels[0]), labels[1..]);
    }
  }

  /** The agent is skipped only by a failed kill of a workload whose exit is confirmed. */
  lemma SkippingNeedsFailedKill(c: Config, labels: seq<Label>, s: State, l: Label)
    requires Exec(c, Init(), labels) == Some(s) && Settles(c, s, l) && SkipsAgent(s, l)
    ensures l == RunStep(Fails) && KillFails(s, l)
    ensures s.workload.Process? && s.workload.killTried && s.workload.exit.Exited?
  {
    ExecKeepsInv(c, Init(), labels);
    WaitErrorExec(c, Init(), labels);
  }

  // ---- handles ----

  /** A handle is cleared by a confirmed exit of its process and by nothing else; a failed wait
      leaves it set. */
  lemma OnlyExitClearsHandle(c: Config, s: State, l: Label, p: ProcessId)
    requires Inv(s) && Enabled(c, s, l) && Get(s, p).HandleSet()
    ensures !Get(Apply(c, s, l), p).HandleSet() <==> l.ProcessExits? && l.process == p
  {
    match l
    case RunStep(o) => RunMoves(c, s, o); RunKeepsInv(c, s, o);
    case CallStep(i, o) => CallOnlyKills(c, s, i, o);
    case OnCancel => CancelShape(s);
    case _ =>
  }

  /** The tracker is started at most once and, once `run` has settled, ended as often. */
  lemma TrackerEndsExactlyOnce(c: Config, labels: seq<Label>, s: State)
    requires Exec(c, Init(), labels) == Some(s)
    ensures s.trackerEnds <= s.trackerStarts <= 1
    ensures s.pc.RunSettled? ==> s.trackerEnds == s.trackerStarts
    ensures s.agent.Process? || s.workload.Process? ==> s.trackerStarts == 1
  {
    ExecKeepsInv(c, Init(), labels);
    StartedNeedsTracker(c, Init(), labels);
  }

  lemma {:induction false} StartedNeedsTracker(c: Config, s: State, labels: seq<Label>)
    requires Exec(c, s, labels).Some? && Inv(s)
    requires s.agent.Process? || s.workload.Process? ==> s.trackerStarts == 1
    ensures var t := Exec(c, s, labels).value; t.agent.Process? || t.workload.Process? ==> t.trackerStarts == 1
    decreases |labels|
  {
    if labels != [] {
      var t := Apply(c, s, labels[0]);
      StepKeepsInv(c, s, labels[0]);
      StartsWithTracker(c, s, labels[0]);
      StartedNeedsTracker(c, t, labels[1..]);
    }
  }

  lemma StartsWithTracker(c: Config, s: State, l: Label)
    requires Inv(s) && Enabled(c, s, l)
    requires s.agent.Process? || s.workload.Process? ==> s.trackerStarts == 1
    ensures var t := Apply(c, s, l); t.agent.Process? || t.workload.Process? ==> t.trackerStarts == 1
  {
    match l
    case RunStep(o) => RunStartsWithTracker(c, s, o);
    case CallStep(i, o) => CallOnlyKills(c, s, i, o);
    case _ =>
  }

  lemma RunStartsWithTracker(c: Config, s: State, o: Outcome)
    requires Inv(s) && RunEnabled(c, s, o)
    requires s.agent.Process? || s.workload.Process? ==> s.trackerStarts == 1
    ensures var t := ApplyRun(c, s, o); t.agent.Process? || t.workload.Process? ==> t.trackerStarts == 1
  {
    RunKeepsInv(c, s, o);
    OneTrackerAtMost(ApplyRun(c, s, o));
    RunMoves(c, s, o);
  }

  lemma OneTrackerAtMost(s: State)
    requires Inv(s)
    ensures s.trackerStarts <= 1
  {
  }

  /** Without a stop, a cancellation or a timeout, `run` returns normally only after the
      workload exited with code zero. */
  lemma NormalReturnHasReason(c: Config, labels: seq<Label>, s: State)
    requires Exec(c, Init(), labels) == Some(s) && s.pc.RunSettled?
    requires !s.failed && !s.requestStop && !s.requestCancel
    ensures s.workload.Process? && s.workload.exit == Exited(0)
  {
    ExecKeepsInv(c, Init(), labels);
  }

  // ---- a clean-up that begins cancelled ----

  lemma {:induction false} StaysUntilExits(c: Config, s: State, labels: seq<Label>)
    requires s.pc.AwaitingExits? && Exec(c, s, labels).Some?
    requires !Exec(c, s, labels).value.pc.RunSettled?
    ensures Exec(c, s, labels).value.pc.AwaitingExits?
    decreases |labels|
  {
    if labels != [] {
      var t := Apply(c, s, labels[0]);
      if t.pc.RunSettled? {
        SettledStays(c, t, labels[1..]);
      } else {
        StaysUntilExits(c, t, labels[1..]);
      }
    }
  }

  lemma {:induction false} SettledStays(c: Config, s: State, labels: seq<Label>)
    requires s.pc.RunSettled? && Exec(c, s, labels).Some?
    ensures Exec(c, s, labels).value.pc.RunSettled?
    decreases |labels|
  {
    if labels != [] {
      SettledStays(c, Apply(c, s, labels[0]), labels[1..]);
    }
  }

  /** The step with which the clean-up begins; it may also end there. */
  predicate EntersCleanup(c: Config, s: State, l: Label) {
    && Enabled(c, s, l) && BeforeCleanup(s)
    && !BeforeCleanup(Apply(c, s, l))
    && (Apply(c, s, l).pc.RunSettled? ==> Apply(c, s, l).trackerEnds > s.trackerEnds)
  }

  /** If a cancellation is recorded when the clean-up begins, `run` settles only after the
      exit promise of every process it started has settled. */
  lemma CancelledCleanupWaits(c: Config, s0: State, l0: Label, labels: seq<Label>, s: State, l: Label)
    requires EntersCleanup(c, s0, l0) && Apply(c, s0, l0).requestCancel
    requires Exec(c, Apply(c, s0, l0), labels) == Some(s) && Settles(c, s, l)
    ensures s.agent.Settled() && s.workload.Settled()
  {
    CancelledCleanupBegins(c, s0, l0);
    StaysUntilExits(c, Apply(c, s0, l0), labels);
    SettlesByRun(c, s, l);
  }

  lemma CancelledCleanupBegins(c: Config, s: State, l: Label)
    requires EntersCleanup(c, s, l) && Apply(c, s, l).requestCancel
    ensures Apply(c, s, l).pc.AwaitingExits?
  {
    if l.CallStep? {
      CallOnlyKills(c, s, l.call, l.outcome);
    }
  }

  // ---- concrete runs ----

  const Launching: Config := Config(true, true)

  /** Up to the race, then a timeout, and the clean-up interrupts the workload. */
  const SkippingRun: seq<Label> := [
    RunStep(Done), RunStep(Done), RunStep(Done), RunStep(Done),
    RunStep(TimedOut), RunStep(Done), RunStep(TimedOut), ProcessExits(Workload, 0)]

  const Racers: State :=
    State(false, false, Process(Pending, false), Process(Pending, false), Racing, false, [], 1, 0)

  lemma RaceIsReached()
    ensures Exec(Launching, Init(), [RunStep(Done), RunStep(Done), RunStep(Done), RunStep(Done)]) == Some(Racers)
  {
    ExecFour(Launching, Init(), RunStep(Done), RunStep(Done), RunStep(Done), RunStep(Done));
  }

  lemma RaceContinues(labels: seq<Label>)
    requires |labels| >= 4 && labels[..4] == [RunStep(Done), RunStep(Done), RunStep(Done), RunStep(Done)]
    ensures Exec(Launching, Init(), labels) == Exec(Launching, Racers, labels[4..])
  {
    RaceIsReached();
    ExecSplit(Launching, Init(), labels, 4);
  }

  /** The branch is reachable: the workload outlives its grace period, exits while the kill
      is under way, and the kill fails. The agent is still running and nobody signalled it. */
  lemma SkippedAgentIsReachable()
    ensures Exec(Launching, Init(), SkippingRun).Some?
    ensures var s := Exec(Launching, Init(), SkippingRun).value;
            && Settles(Launching, s, RunStep(Fails)) && SkipsAgent(s, RunStep(Fails))
            && Apply(Launching, s, RunStep(Fails)).agent == Process(Pending, false)
            && s.calls == []
    ensures WaitsSucceed(SkippingRun + [RunStep(Fails)])
  {
    SkippingExec();
    SkippingEnd();
    SkippingWaitsSucceed();
  }

  lemma SkippingWaitsSucceed()
    ensures WaitsSucceed(SkippingRun + [RunStep(Fails)])
  {
  }

  lemma SkippingExec()
    ensures Exec(Launching, Init(), SkippingRun) == Some(Skipping)
  {
    RaceContinues(SkippingRun);
    assert SkippingRun[4..] == [RunStep(TimedOut), RunStep(Done), RunStep(TimedOut), ProcessExits(Workload, 0)];
    SkippingTail();
  }

  /** The workload is being killed and has just exited. */
  const Skipping: State :=
    Racers.(requestStop := true, workload := Process(Exited(0), true), pc := CleaningWorkload(EndKilling(false)))

  lemma SkippingTail()
    ensures Exec(Launching, Racers, [RunStep(TimedOut), RunStep(Done), RunStep(TimedOut), ProcessExits(Workload, 0)])
              == Some(Skipping)
  {
    var s1 := Racers.(requestStop := true, pc := CleaningWorkload(EndInterrupting));
    var s2 := s1.(pc := CleaningWorkload(EndGrace));
    var s3 := s2.(workload := Process(Pending, true), pc := CleaningWorkload(EndKilling(false)));
    assert Enabled(Launching, Racers, RunStep(TimedOut)) && Apply(Launching, Racers, RunStep(TimedOut)) == s1;
    KillingStep(s1, s2, s3);
    ExecFour(Launching, Racers, RunStep(TimedOut), RunStep(Done), RunStep(TimedOut), ProcessExits(Workload, 0));
  }

  lemma KillingStep(s1: State, s2: State, s3: State)
    requires s1 == Racers.(requestStop := true, pc := CleaningWorkload(EndInterrupting))
    requires s2 == s1.(pc := CleaningWorkload(EndGrace))
    requires s3 == s2.(workload := Process(Pending, true), pc := CleaningWorkload(EndKilling(false)))
    ensures Enabled(Launching, s1, RunStep(Done)) && Apply(Launching, s1, RunStep(Done)) == s2
    ensures Enabled(Launching, s2, RunStep(TimedOut)) && Apply(Launching, s2, RunStep(TimedOut)) == s3
    ensures Enabled(Launching, s3, ProcessExits(Workload, 0)) && Apply(Launching, s3, ProcessExits(Workload, 0)) == Skipping
  {
  }

  lemma SkippingEnd()
    ensures Settles(Launching, Skipping, RunStep(Fails)) && SkipsAgent(Skipping, RunStep(Fails))
    ensures Apply(Launching, Skipping, RunStep(Fails)).agent == Process(Pending, false)
  {
  }

  /** Up to the race, then a cancellation whose kill of the agent is still under way. */
  const AbandoningRun: seq<Label> := [
    RunStep(Done), RunStep(Done), RunStep(Done), RunStep(Done),
    OnCancel, ProcessExits(Agent, 137), ProcessWaitFails(Workload), RunStep(AgentSettles)]

  lemma AbandonedWaitIsReachable()
    ensures Exec(Launching, Init(), AbandoningRun).Some?
    ensures var s := Exec(Launching, Init(), AbandoningRun).value;
            && Settles(Launching, s, RunStep(Done)) && AbandonsWait(s)
            && Apply(Launching, s, RunStep(Done)).workload == Process(WaitFailed, false)
    ensures KillsSucceed(Launching, Init(), AbandoningRun + [RunStep(Done)])
  {
    AbandoningExec();
    AbandoningEnd();
    AbandoningKills();
  }

  lemma AbandoningExec()
    ensures Exec(Launching, Init(), AbandoningRun) == Some(Abandoning)
  {
    RaceContinues(AbandoningRun);
    assert AbandoningRun[4..] == [OnCancel, ProcessExits(Agent, 137), ProcessWaitFails(Workload), RunStep(AgentSettles)];
    AbandoningTail();
  }

  lemma AbandoningKills()
    ensures KillsSucceed(Launching, Init(), AbandoningRun + [RunStep(Done)])
  {
    AbandoningExec();
    AbandoningEnd();
    ExecAppend(Launching, Init(), AbandoningRun, RunStep(Done));
    NothingFails(Launching, Init(), AbandoningRun + [RunStep(Done)]);
  }

  /** Both exit promises have settled while the kill of the agent is under way. */
  const Abandoning: State :=
    State(false, true, Process(Exited(137), true), Process(WaitFailed, false), AwaitingExits, false, [CancellingAgent], 1, 0)

  lemma AbandoningTail()
    ensures Exec(Launching, Racers, [OnCancel, ProcessExits(Agent, 137), ProcessWaitFails(Workload), RunStep(AgentSettles)])
              == Some(Abandoning)
  {
    var s1 := Racers.(requestCancel := true, agent := Process(Pending, true), calls := [CancellingAgent]);
    var s2 := s1.(agent := Process(Exited(137), true));
    var s3 := s2.(workload := Process(WaitFailed, false));
    assert Enabled(Launching, Racers, OnCancel) && Apply(Launching, Racers, OnCancel) == s1;
    assert Enabled(Launching, s1, ProcessExits(Agent, 137)) && Apply(Launching, s1, ProcessExits(Agent, 137)) == s2;
    SettlingStep(s2, s3);
    ExecFour(Launching, Racers, OnCancel, ProcessExits(Agent, 137), ProcessWaitFails(Workload), RunStep(AgentSettles));
  }

  lemma SettlingStep(s2: State, s3: State)
    requires s2 == State(false, true, Process(Exited(137), true), Process(Pending, false), Racing, false,
                         [CancellingAgent], 1, 0)
    requires s3 == s2.(workload := Process(WaitFailed, false))
    ensures Enabled(Launching, s2, ProcessWaitFails(Workload)) && Apply(Launching, s2, ProcessWaitFails(Workload)) == s3
    ensures Enabled(Launching, s3, RunStep(AgentSettles)) && Apply(Launching, s3, RunStep(AgentSettles)) == Abandoning
  {
  }

  lemma AbandoningEnd()
    ensures Settles(Launching, Abandoning, RunStep(Done)) && AbandonsWait(Abandoning)
    ensures Apply(Launching, Abandoning, RunStep(Done)).workload == Process(WaitFailed, false)
  {
  }

  lemma {:induction false} ExecSplit(c: Config, s: State, labels: seq<Label>, k: nat)
    requires k <= |labels|
    ensures Exec(c, s, labels) ==
              match Exec(c, s, labels[..k])
              case None => None
              case Some(t) => Exec(c, t, labels[k..])
    decreases k
  {
    if k > 0 && Enabled(c, s, labels[0]) {
      ExecSplit(c, Apply(c, s, labels[0]), labels[1..], k - 1);
      assert labels[1..][..k - 1] == labels[..k][1..];
      assert labels[1..][k - 1..] == labels[k..];
    } else if k == 0 {
      assert labels[..k] == [] && labels[k..] == labels;
    }
  }

  lemma ExecFour(c: Config, s: State, l0: Label, l1: Label, l2: Label, l3: Label)
    ensures Exec(c, s, [l0, l1, l2, l3]) ==
              if !Enabled(c, s, l0) then None
              else var s1 := Apply(c, s, l0);
              if !Enabled(c, s1, l1) then None
              else var s2 := Apply(c, s1, l1);
              if !Enabled(c, s2, l2) then None
              else var s3 := Apply(c, s2, l2);
              if !Enabled(c, s3, l3) then None else Some(Apply(c, s3, l3))
  {
    ExecCons(c, s, l0, [l1, l2, l3]);
    if Enabled(c, s, l0) {
      var s1 := Apply(c, s, l0);
      ExecCons(c, s1, l1, [l2, l3]);
      if Enabled(c, s1, l1) {
        var s2 := Apply(c, s1, l1);
        ExecCons(c, s2, l2, [l3]);
        if Enabled(c, s2, l2) {
          ExecCons(c, Apply(c, s2, l2), l3, []);
        }
      }
    }
  }

  lemma ExecCons(c: Config, s: State, l: Label, rest: seq<Label>)
    ensures Exec(c, s, [l] + rest) == if Enabled(c, s, l) then Exec(c, Apply(c, s, l), rest) else None
  {
    assert ([l] + rest)[1..] == rest;
  }

  lemma ExecAppend(c: Config, s: State, labels: seq<Label>, l: Label)
    ensures Exec(c, s, labels + [l]) ==
              match Exec(c, s, labels)
              case None => None
              case Some(t) => if Enabled(c, t, l) then Some(Apply(c, t, l)) else None
  {
    ExecSplit(c, s, labels + [l], |labels|);
    assert (labels + [l])[..|labels|] == labels && (labels + [l])[|labels|..] == [l];
    match Exec(c, s, labels)
    case None =>
    case Some(t) =>
      assert [l] + [] == [l];
      ExecCons(c, t, l, []);
  }

  /** A run in which nothing awaited fails has no failed kill. */
  lemma {:induction false} NothingFails(c: Config, s: State, labels: seq<Label>)
    requires Exec(c, s, labels).Some?
    requires forall l <- labels :: !(l.RunStep? && l.outcome.Fails?) && !(l.CallStep? && l.outcome.Fails?)
    ensures KillsSucceed(c, s, labels)
    decreases |labels|
  {
    if labels != [] {
      NothingFails(c, Apply(c, s, labels[0]), labels[1..]);
    }
  }

  // ---- the tool itself ----

  /** The labels that can happen when their turn comes, the others being passed over. */
  function Happening(c: Config, labels: seq<Label>): (happened: seq<Label>)
    ensures Exec(c, Init(), happened).Some?
  {
    if labels == [] then []
    else
      var before, l := Happening(c, labels[..|labels| - 1]), labels[|labels| - 1];
      ExecAppend(c, Init(), before, l);
      if Enabled(c, Exec(c, Init(), before).value, l) then before + [l] else before
  }

  /** Of the labels `done`, those in `happened` could happen, and they lead to `s`. */
  ghost predicate Ran(c: Config, done: seq<Label>, happened: seq<Label>, s: State) {
    && happened == Happening(c, done) && Exec(c, Init(), happened) == Some(s)
    && (Exec(c, Init(), done).Some? ==> happened == done)
  }

  lemma RanOn(c: Config, done: seq<Label>, happened: seq<Label>, s: State, l: Label)
    requires Ran(c, done, happened, s)
    ensures Enabled(c, s, l) ==> Ran(c, done + [l], happened + [l], Apply(c, s, l))
    ensures !Enabled(c, s, l) ==> Ran(c, done + [l], happened, s)
  {
    ExecAppend(c, Init(), happened, l);
    ExecAppend(c, Init(), done, l);
    assert (done + [l])[..|done|] == done;
  }

  method RunTool(c: Config, labels: seq<Label>) returns (happened: seq<Label>, last: State)
    ensures Ran(c, labels, happened, last)
  {
    var tool := new JvmTool(c);
    happened := [];
    var i := 0;
    while i < |labels|
      invariant 0 <= i <= |labels| && tool.config == c && fresh(tool)
      invariant Ran(c, labels[..i], happened, tool.View())
    {
      var l := labels[i];
      RanOn(c, labels[..i], happened, tool.View(), l);
      assert labels[..i + 1] == labels[..i] + [l];
      if Enabled(c, tool.View(), l) {
        tool.Perform(l);
        happened := happened + [l];
      }
      i := i + 1;
    }
    assert labels[..i] == labels;
    last := tool.View();
  }

  /** Let the tool go through the steps of an interleaving, leaving out those that cannot happen
      when their turn comes; `happened` are the others, all if each can. Whatever is given, the tracker is ended
      as often as it was started once `run` has settled, and if no kill and no wait failed,
      no process is left behind unsignalled. */
  method Replay(c: Config, labels: seq<Label>) returns (happened: seq<Label>, last: State)
    ensures happened == Happening(c, labels) && Exec(c, Init(), happened) == Some(last)
    ensures Exec(c, Init(), labels).Some? ==> happened == labels
    ensures last.trackerEnds <= last.trackerStarts <= 1
    ensures last.pc.RunSettled? ==> last.trackerEnds == last.trackerStarts
    ensures last.pc.RunSettled? && KillsSucceed(c, Init(), happened) && WaitsSucceed(happened) ==> BothSafe(last)
  {
    happened, last := RunTool(c, labels);
    TrackerEndsExactlyOnce(c, happened, last);
    if KillsSucceed(c, Init(), happened) && WaitsSucceed(happened) {
      SmoothRunsLeaveNothing(c, happened);
    }
  }
}
