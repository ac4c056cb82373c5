/** Signals and requests of the ASCT integration: what the event log of every
    interleaving says about interrupts, kills and the way `run` ends. */
module AsctSignals {
  import opened Wrappers
  import opened Asct
  import opened AsctTrackers

  predicate InterruptedIn(log: seq<Event>, h: Handle, call: nat) {
    Interrupted(h, call) in log
  }

  /** Every kill comes after an interrupt attempt by the same activation. */
  ghost predicate KillsFollowInterrupts(log: seq<Event>) {
    forall i :: 0 <= i < |log| && log[i].Killed? ==> InterruptedIn(log[..i], log[i].handle, log[i].call)
  }

  ghost predicate NoRequest(log: seq<Event>) {
    forall i :: 0 <= i < |log| ==> !log[i].Requested?
  }

  /** No check is passed after a request. */
  ghost predicate ChecksPrecedeRequests(log: seq<Event>) {
    forall i :: 0 <= i < |log| && log[i].Checked? ==> NoRequest(log[..i])
  }

  /** A launch of `h` with a request already recorded is followed by an interrupt of `h`. */
  ghost predicate PendingLaunchInterrupted(log: seq<Event>, h: Handle) {
    forall q :: 0 <= q < |log| && log[q] == Launched(h) && !NoRequest(log[..q]) ==>
      exists m :: q < m < |log| && log[m].Interrupted? && log[m].handle == h
  }

  /** A process launched while a request is pending is interrupted before it is waited on. */
  ghost predicate InterruptBeforeWait(log: seq<Event>) {
    forall i :: 0 <= i < |log| && log[i].Waited? ==> PendingLaunchInterrupted(log[..i], log[i].handle)
  }

  /** A check was passed after the last process wait began. */
  ghost predicate CheckedSinceWork(log: seq<Event>) {
    exists j :: 0 <= j < |log| && log[j].Checked? && forall i :: j < i < |log| ==> !log[i].Waited?
  }

  ghost predicate LogInv(log: seq<Event>) {
    KillsFollowInterrupts(log) && ChecksPrecedeRequests(log) && InterruptBeforeWait(log)
  }

  /** `run` is past the check that follows the benchmarks. */
  predicate PastLastCheck(s: State) {
    s.pc == Settled(true) || (s.pc.At? && |s.program| <= s.pc.op + 1)
  }

  ghost predicate SignalInv(s: State) {
    && LogInv(s.log)
    && (s.interrupt.None? <==> NoRequest(s.log))
    && (forall c :: 0 <= c < |s.calls| && s.calls[c].StopCall? ==> InterruptedIn(s.log, s.calls[c].handle, c))
    && (forall i :: 0 <= i < |s.log| && s.log[i].Launched? ==> s.log[i].handle < |s.launched|)
    && (s.pc.Stopping? ==> PendingLaunchInterrupted(s.log, s.pc.handle))
    && (PastLastCheck(s) ==> CheckedSinceWork(s.log))
  }

  // ---- appending one event ----

  lemma NoRequestAppend(log: seq<Event>, e: Event)
    ensures NoRequest(log + [e]) <==> NoRequest(log) && !e.Requested?
  {
    assert (log + [e])[|log|] == e;
    if NoRequest(log + [e]) {
      forall i | 0 <= i < |log| ensures !log[i].Requested? {
        assert (log + [e])[i] == log[i];
      }
    }
  }

  lemma PrefixOfAppend(log: seq<Event>, e: Event)
    ensures forall i :: 0 <= i <= |log| ==> (log + [e])[..i] == log[..i]
  {
  }

  lemma AppendKeepsLogInv(log: seq<Event>, e: Event)
    requires LogInv(log)
    requires e.Killed? ==> InterruptedIn(log, e.handle, e.call)
    requires e.Checked? ==> NoRequest(log)
    requires e.Waited? ==> PendingLaunchInterrupted(log, e.handle)
    ensures LogInv(log + [e])
  {
    PrefixOfAppend(log, e);
    assert log[..|log|] == log;
  }

  lemma PendingAppend(log: seq<Event>, e: Event, h: Handle)
    requires PendingLaunchInterrupted(log, h) && e != Launched(h)
    ensures PendingLaunchInterrupted(log + [e], h)
  {
    PrefixOfAppend(log, e);
    forall q | 0 <= q < |log| + 1 && (log + [e])[q] == Launched(h) && !NoRequest((log + [e])[..q])
      ensures exists m :: q < m < |log + [e]| && (log + [e])[m].Interrupted? && (log + [e])[m].handle == h
    {
      assert log[q] == Launched(h);
      var m :| q < m < |log| && log[m].Interrupted? && log[m].handle == h;
      assert (log + [e])[m] == log[m];
    }
  }

  lemma CheckedAppend(log: seq<Event>, e: Event)
    requires CheckedSinceWork(log) && !e.Waited?
    ensures CheckedSinceWork(log + [e])
  {
    var j :| 0 <= j < |log| && log[j].Checked? && forall i :: j < i < |log| ==> !log[i].Waited?;
    assert (log + [e])[j].Checked?;
    assert forall i :: j < i < |log + [e]| ==> !(log + [e])[i].Waited?;
  }

  /** What emitting an event preserves, whoever emits it. */
  lemma EmitKeeps(s: State, e: Event)
    requires SignalInv(s)
    requires e.Killed? ==> InterruptedIn(s.log, e.handle, e.call)
    requires e.Checked? ==> NoRequest(s.log)
    requires e.Waited? ==> PendingLaunchInterrupted(s.log, e.handle) && !PastLastCheck(s)
    requires !e.Launched? && !e.Requested?
    ensures SignalInv(Emit(s, e))
  {
    AppendKeepsLogInv(s.log, e);
    NoRequestAppend(s.log, e);
    if s.pc.Stopping? { PendingAppend(s.log, e, s.pc.handle); }
    if PastLastCheck(s) { CheckedAppend(s.log, e); }
  }

  // ---- one step ----

  predicate EndsWithCheck(program: seq<Op>) {
    |program| >= 3 && program[|program| - 2..] == [Check, ExpectZero]
  }

  lemma BeginStopKeeps(s: State)
    requires SignalInv(s)
    ensures SignalInv(BeginStop(s))
    ensures s.activeHandle.Some? ==>
              BeginStop(s).log == s.log + [Interrupted(s.activeHandle.value, |s.calls|)]
  {
    if s.activeHandle.Some? {
      EmitKeeps(s, Interrupted(s.activeHandle.value, |s.calls|));
    }
  }

  lemma RequestKeeps(s: State, kind: Interrupt)
    requires SignalInv(s)
    ensures SignalInv(Apply(s, Request(kind)))
  {
    var s1 := Emit(s, Requested(kind)).(interrupt := Some(kind));
    AppendKeepsLogInv(s.log, Requested(kind));
    NoRequestAppend(s.log, Requested(kind));
    if s.pc.Stopping? { PendingAppend(s.log, Requested(kind), s.pc.handle); }
    if PastLastCheck(s) { CheckedAppend(s.log, Requested(kind)); }
    assert SignalInv(s1);
    if s.activeHandle.Some? {
      EmitKeeps(s1, Interrupted(s.activeHandle.value, |s.calls|));
    }
  }

  lemma FinishStopKeeps(s: State, i: nat, threw: bool)
    requires SignalInv(s) && i < |s.calls| && s.calls[i].StopCall?
    ensures SignalInv(FinishStop(s, i, threw))
  {
    if s.calls[i].tracker.Some? {
      EmitKeeps(s, Ended(s.calls[i].tracker.value));
    }
  }

  lemma StopKeeps(s: State, i: nat, o: Outcome)
    requires SignalInv(s) && StopEnabled(s, i, o)
    ensures SignalInv(ApplyStop(s, i, o))
  {
    EmitKeeps(s, Killed(s.calls[i].handle, i));
    FinishStopKeeps(s, i, true);
    FinishStopKeeps(s, i, false);
  }

  lemma OpKeeps(s: State)
    requires SignalInv(s) && EndsWithCheck(s.program) && s.pc.At? && s.pc.op <= |s.program|
    ensures SignalInv(ApplyOp(s))
  {
    var op := s.pc.op;
    var t := ApplyOp(s);
    if op == |s.program| {
      EmitKeeps(s, Returned);
    } else {
      assert op == |s.program| - 2 ==> s.program[op] == Check;
      assert op == |s.program| - 1 ==> s.program[op] == ExpectZero;
      match s.program[op]
      case Check =>
        if s.interrupt.None? {
          EmitKeeps(s, Checked);
          assert t.log[|s.log|] == Checked;
        }
      case Await =>
      case Stage(x) => EmitKeeps(s, Started(x));
      case ExpectZero =>
    }
  }

  lemma LaunchedAppend(log: seq<Event>, h: Handle)
    requires LogInv(log) && forall i :: 0 <= i < |log| ==> log[i] != Launched(h)
    ensures LogInv(log + [Launched(h)])
    ensures NoRequest(log) ==> PendingLaunchInterrupted(log + [Launched(h)], h)
    ensures forall call: nat :: PendingLaunchInterrupted(log + [Launched(h)] + [Interrupted(h, call)], h)
  {
    AppendKeepsLogInv(log, Launched(h));
    var l1 := log + [Launched(h)];
    assert l1[..|log|] == log;
    forall call: nat
      ensures PendingLaunchInterrupted(l1 + [Interrupted(h, call)], h)
    {
      var l2 := l1 + [Interrupted(h, call)];
      assert l2[|l1|] == Interrupted(h, call);
      forall q | 0 <= q < |l2| && l2[q] == Launched(h)
        ensures exists m :: q < m < |l2| && l2[m].Interrupted? && l2[m].handle == h
      {
        assert q < |l1| < |l2|;
      }
    }
  }

  /** The launched process in its slot, before it is waited on or stopped. */
  function Registered(s: State): State
    requires InStage(s)
  {
    Emit(s, Launched(|s.launched|)).(launched := s.launched + [StageTracker(s)], activeHandle := Some(|s.launched|))
  }

  lemma RegisteredKeeps(s: State)
    requires SignalInv(s) && s.pc.Launching? && InStage(s)
    ensures SignalInv(Registered(s))
  {
    LaunchedAppend(s.log, |s.launched|);
    NoRequestAppend(s.log, Launched(|s.launched|));
  }

  lemma LaunchKeeps(s: State)
    requires SignalInv(s) && s.pc.Launching? && InStage(s)
    ensures SignalInv(AfterLaunch(s))
  {
    var h := |s.launched|;
    RegisteredKeeps(s);
    LaunchedAppend(s.log, h);
    if s.interrupt.Some? {
      BeginStopKeeps(Registered(s));
    } else {
      EmitKeeps(Registered(s), Waited(h));
    }
  }

  lemma WaitKeeps(s: State, o: Outcome)
    requires SignalInv(s) && s.pc.Waiting? && InStage(s) && PcInv(s) && EndsWithCheck(s.program)
    ensures SignalInv(AfterWait(s, o))
  {
    StageIsNotLast(s);
    AfterWaitShape(s, o);
    EndedKeeps(s, AfterWait(s, o), StageTracker(s));
  }

  /** Leaving a stage moves `run` on and may end its tracker; no signal and no request. */
  predicate OnlyEnds(s: State, t: State, x: Tracker) {
    && t.interrupt == s.interrupt && t.calls == s.calls && t.launched == s.launched
    && (t.log == s.log || t.log == s.log + [Ended(x)])
    && !t.pc.Stopping? && !PastLastCheck(t)
  }

  lemma AfterWaitShape(s: State, o: Outcome)
    requires s.pc.Waiting? && InStage(s) && s.pc.op + 2 < |s.program|
    ensures OnlyEnds(s, AfterWait(s, o), StageTracker(s))
  {
  }

  lemma GivenUpShape(s: State)
    requires s.pc.Stopping? && InStage(s) && s.pc.op + 2 < |s.program|
    ensures OnlyEnds(s, LeaveStage(FinishTracked(s, s.pc.handle, false), true), StageTracker(s))
  {
  }

  lemma EndedKeeps(s: State, t: State, x: Tracker)
    requires SignalInv(s) && !PastLastCheck(s) && OnlyEnds(s, t, x)
    ensures SignalInv(t)
  {
    if t.log != s.log {
      AppendKeepsLogInv(s.log, Ended(x));
      NoRequestAppend(s.log, Ended(x));
    }
  }

  /** After a stage there is still a check to pass. */
  lemma StageIsNotLast(s: State)
    requires InStage(s) && EndsWithCheck(s.program)
    ensures s.pc.op + 2 < |s.program|
  {
    var n := |s.program|;
    assert s.program[n - 2..][0] == s.program[n - 2] && s.program[n - 2..][1] == s.program[n - 1];
  }

  /** A step that only moves `run`, not past its last check, and emits nothing. */
  lemma MoveKeeps(s: State, t: State)
    requires SignalInv(s) && t == s.(pc := t.pc) && !t.pc.Stopping? && !PastLastCheck(t)
    ensures SignalInv(t)
  {
  }

  lemma LaunchFailureKeeps(s: State)
    requires SignalInv(s) && s.pc.Launching? && InStage(s) && EndsWithCheck(s.program)
    ensures SignalInv(LeaveStage(Emit(s, Ended(StageTracker(s))), true))
  {
    EmitKeeps(s, Ended(StageTracker(s)));
    MoveKeeps(Emit(s, Ended(StageTracker(s))), LeaveStage(Emit(s, Ended(StageTracker(s))), true));
  }

  lemma StoppedKeeps(s: State, o: Outcome)
    requires SignalInv(s) && s.pc.Stopping? && RunEnabled(s, o) && EndsWithCheck(s.program)
    ensures SignalInv(ApplyRun(s, o))
  {
    var call := s.calls[s.pc.call];
    if call.StopCall? && call.pc.threw {
      GivenUpKeeps(s);
    } else {
      StoppedWaits(s);
    }
  }

  lemma GivenUpKeeps(s: State)
    requires SignalInv(s) && s.pc.Stopping? && InStage(s) && EndsWithCheck(s.program)
    ensures SignalInv(LeaveStage(FinishTracked(s, s.pc.handle, false), true))
  {
    StageIsNotLast(s);
    GivenUpShape(s);
    EndedKeeps(s, LeaveStage(FinishTracked(s, s.pc.handle, false), true), StageTracker(s));
  }

  lemma StoppedWaits(s: State)
    requires SignalInv(s) && s.pc.Stopping? && InStage(s) && EndsWithCheck(s.program)
    ensures SignalInv(BeginWait(s, s.pc.op, s.pc.handle))
  {
    StageIsNotLast(s);
    EmitKeeps(s, Waited(s.pc.handle));
    MoveKeeps(Emit(s, Waited(s.pc.handle)), BeginWait(s, s.pc.op, s.pc.handle));
  }

  lemma RunKeeps(s: State, o: Outcome)
    requires SignalInv(s) && PcInv(s) && EndsWithCheck(s.program) && RunEnabled(s, o)
    ensures SignalInv(ApplyRun(s, o))
  {
    var n := |s.program|;
    assert s.program[n - 2..][0] == s.program[n - 2] && s.program[n - 2..][1] == s.program[n - 1];
    match s.pc
    case At(_) => OpKeeps(s);
    case Awaiting(_) => MoveKeeps(s, ApplyRun(s, o));
    case Updating(_) => MoveKeeps(s, ApplyRun(s, o));
    case Launching(_) =>
      LaunchKeeps(s);
      LaunchFailureKeeps(s);
    case Stopping(_, _, _) => StoppedKeeps(s, o);
    case Waiting(_, _) => WaitKeeps(s, o);
    case Normalizing(_, _) => MoveKeeps(s, ApplyRun(s, o));
  }

  lemma StepKeeps(s: State, l: Label)
    requires SignalInv(s) && PcInv(s) && EndsWithCheck(s.program) && Enabled(s, l)
    ensures SignalInv(Apply(s, l))
  {
    match l
    case Request(kind) => RequestKeeps(s, kind);
    case RunStep(o) => RunKeeps(s, o);
    case StopStep(i, o) => StopKeeps(s, i, o);
  }

  lemma {:induction false} ReachableSignals(rebuild: bool, labels: seq<Label>)
    requires Exec(rebuild, labels).Some?
    ensures SignalInv(Exec(rebuild, labels).value)
  {
    if labels != [] {
      var n := |labels| - 1;
      ReachableInv(rebuild, labels[..n]);
      ReachableSignals(rebuild, labels[..n]);
      StepKeeps(Exec(rebuild, labels[..n]).value, labels[n]);
    }
  }

  // ---- the promises ----

  /** Escalation: every kill, from whichever callback, comes after that callback's own
      interrupt attempt on the same process. */
  lemma KillOnlyAfterInterrupt(rebuild: bool, labels: seq<Label>, i: nat)
    requires Exec(rebuild, labels).Some?
    requires i < |Exec(rebuild, labels).value.log| && Exec(rebuild, labels).value.log[i].Killed?
    ensures var log := Exec(rebuild, labels).value.log;
            exists j :: 0 <= j < i && log[j] == Interrupted(log[i].handle, log[i].call)
  {
    ReachableSignals(rebuild, labels);
    var log := Exec(rebuild, labels).value.log;
    assert InterruptedIn(log[..i], log[i].handle, log[i].call);
    var j :| 0 <= j < |log[..i]| && log[..i][j] == Interrupted(log[i].handle, log[i].call);
    assert log[j] == log[..i][j];
  }

  /** A process launched at `q` with a request recorded earlier, at `p`, is interrupted
      between its launch and the moment `run` starts to wait for it. */
  lemma PendingRequestReachesProcess(rebuild: bool, labels: seq<Label>, p: nat, q: nat, i: nat)
    requires Exec(rebuild, labels).Some?
    requires p < q < i < |Exec(rebuild, labels).value.log|
    requires Exec(rebuild, labels).value.log[p].Requested?
    requires Exec(rebuild, labels).value.log[i].Waited?
    requires Exec(rebuild, labels).value.log[q] == Launched(Exec(rebuild, labels).value.log[i].handle)
    ensures var log := Exec(rebuild, labels).value.log;
            exists m :: q < m < i && log[m].Interrupted? && log[m].handle == log[i].handle
  {
    ReachableSignals(rebuild, labels);
    var log := Exec(rebuild, labels).value.log;
    assert PendingLaunchInterrupted(log[..i], log[i].handle);
    assert log[..i][q] == Launched(log[i].handle);
    assert !NoRequest(log[..i][..q]) by { assert log[..i][..q][p].Requested?; }
    var m :| q < m < |log[..i]| && log[..i][m].Interrupted? && log[..i][m].handle == log[i].handle;
    assert log[m] == log[..i][m];
  }

  /** Position `j` holds a passed check that follows all process waits and precedes all
      requests. */
  ghost predicate SeparatesWorkFromRequests(log: seq<Event>, j: nat) {
    && j < |log| && log[j].Checked?
    && (forall i :: 0 <= i < |log| && log[i].Waited? ==> i < j)
    && (forall i :: 0 <= i < |log| && log[i].Requested? ==> j < i)
  }

  lemma LastCheckSeparates(log: seq<Event>)
    requires CheckedSinceWork(log) && ChecksPrecedeRequests(log)
    ensures exists j: nat :: SeparatesWorkFromRequests(log, j)
  {
    var j: nat :| j < |log| && log[j].Checked? && forall i :: j < i < |log| ==> !log[i].Waited?;
    assert NoRequest(log[..j]);
    assert SeparatesWorkFromRequests(log, j);
  }

  /** `run` returns normally only if every request comes after its last check, a check that
      it passed after it began to wait for its last process. */
  lemma NormalReturnMeansNoEarlierRequest(rebuild: bool, labels: seq<Label>)
    requires Exec(rebuild, labels).Some? && Exec(rebuild, labels).value.pc == Settled(true)
    ensures exists j: nat :: SeparatesWorkFromRequests(Exec(rebuild, labels).value.log, j)
  {
    ReachableSignals(rebuild, labels);
    LastCheckSeparates(Exec(rebuild, labels).value.log);
  }

  // ---- the tool itself ----

  /** Each tracker has been ended at most as often as it was started, and that once at most;
      when `run` has settled, exactly as often, and no slot refers to a process. */
  ghost predicate TrackersBalance(s: State) {
    && (forall t: Tracker :: Count(s.log, Ended(t)) <= Count(s.log, Started(t)) <= 1)
    && (s.pc.Settled? ==>
          && (forall t: Tracker :: Count(s.log, Ended(t)) == Count(s.log, Started(t)))
          && s.activeHandle == s.setupHandle == s.runHandle == None && s.activeTracker == None)
  }

  lemma BalanceHolds(rebuild: bool, labels: seq<Label>)
    requires Exec(rebuild, labels).Some?
    ensures TrackersBalance(Exec(rebuild, labels).value)
  {
    var s := Exec(rebuild, labels).value;
    forall t: Tracker
      ensures Count(s.log, Ended(t)) <= Count(s.log, Started(t)) <= 1
      ensures s.pc.Settled? ==> Count(s.log, Ended(t)) == Count(s.log, Started(t))
    {
      TrackersEndExactlyOnce(rebuild, labels, t);
    }
    TrackersEndExactlyOnce(rebuild, labels, Benchmarks);
  }

  lemma ExecGrows(rebuild: bool, labels: seq<Label>, l: Label)
    ensures Exec(rebuild, labels + [l]) ==
              match Exec(rebuild, labels)
              case None => None
              case Some(s) => if Enabled(s, l) then Some(Apply(s, l)) else None
  {
    assert (labels + [l])[..|labels|] == labels;
  }

  /** The labels that can happen when their turn comes, the others being passed over. */
  function Happening(rebuild: bool, labels: seq<Label>): (happened: seq<Label>)
    ensures Exec(rebuild, happened).Some?
  {
    if labels == [] then []
    else
      var before, l := Happening(rebuild, labels[..|labels| - 1]), labels[|labels| - 1];
      ExecGrows(rebuild, before, l);
      if Enabled(Exec(rebuild, before).value, l) then before + [l] else before
  }

  /** Of the labels `done`, those in `happened` could happen, and they lead to `s`. */
  ghost predicate Ran(rebuild: bool, done: seq<Label>, happened: seq<Label>, s: State) {
    && happened == Happening(rebuild, done) && Exec(rebuild, happened) == Some(s)
    && (Exec(rebuild, done).Some? ==> happened == done)
  }

  lemma RanOn(rebuild: bool, done: seq<Label>, happened: seq<Label>, s: State, l: Label)
    requires Ran(rebuild, done, happened, s)
    ensures Enabled(s, l) ==> Ran(rebuild, done + [l], happened + [l], Apply(s, l))
    ensures !Enabled(s, l) ==> Ran(rebuild, done + [l], happened, s)
  {
    ExecGrows(rebuild, happened, l);
    ExecGrows(rebuild, done, l);
    assert (done + [l])[..|done|] == done;
  }

  method RunTool(rebuild: bool, labels: seq<Label>) returns (happened: seq<Label>, last: State)
    ensures Ran(rebuild, labels, happened, last)
  {
    var tool := new AsctTool(rebuild);
    happened := [];
    var i := 0;
    while i < |labels|
      invariant 0 <= i <= |labels| && fresh(tool)
      invariant Ran(rebuild, labels[..i], happened, tool.View())
    {
      var l := labels[i];
      RanOn(rebuild, labels[..i], happened, tool.View(), l);
      assert labels[..i + 1] == labels[..i] + [l];
      if Enabled(tool.View(), l) {
        tool.Perform(l);
        happened := happened + [l];
      }
      i := i + 1;
    }
    assert labels[..i] == labels;
    last := tool.View();
  }

  /** Let the tool go through the steps of an interleaving, leaving out those that cannot happen
      when their turn comes; `happened` are the others, all if each can. Whatever is given, the trackers
      balance, kills follow interrupts, and a run that returned normally had no request before
      its last check. */
  method Replay(rebuild: bool, labels: seq<Label>) returns (happened: seq<Label>, last: State)
    ensures happened == Happening(rebuild, labels) && Exec(rebuild, happened) == Some(last)
    ensures Exec(rebuild, labels).Some? ==> happened == labels
    ensures TrackersBalance(last)
    ensures KillsFollowInterrupts(last.log) && InterruptBeforeWait(last.log)
    ensures last.pc == Settled(true) ==> exists j: nat :: SeparatesWorkFromRequests(last.log, j)
  {
    happened, last := RunTool(rebuild, labels);
    BalanceHolds(rebuild, happened);
    ReachableSignals(rebuild, happened);
    if last.pc == Settled(true) {
      NormalReturnMeansNoEarlierRequest(rebuild, happened);
    }
  }
}
