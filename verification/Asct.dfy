/** The ASCT tool integration: `run` walks through checks, awaited engine calls and
    tracked processes, while any number of stop and cancel callbacks act on the same
    `ctx.metadata`. A step is the code between two `await`s of `run` or of a callback;
    what an awaited call answers is chosen by the environment. */
module Asct {
  import opened Wrappers

  /** A process handle, numbered by launch. */
  type Handle = nat

  datatype Tracker = VenvSetup | PackageInstall | Benchmarks

  datatype Interrupt = Stop | Cancel

  /** What `run` does next: throw if interrupted, await an engine call, run a tracked
      process, or throw unless that process exited with code zero. */
  datatype Op = Check | Await | Stage(tracker: Tracker) | ExpectZero

  /** What the outside sees, in order. `call` numbers the activations of
      `stopActiveAsctProcess`. */
  datatype Event =
    | Requested(kind: Interrupt)
    | Checked
    | Started(tracker: Tracker)
    | Ended(tracker: Tracker)
    | Launched(handle: Handle)
    | Waited(handle: Handle)
    | Interrupted(handle: Handle, call: nat)
    | Killed(handle: Handle, call: nat)
    | Returned

  datatype StopPc =
    | Interrupting              // awaiting interrupt()
    | InterruptWait             // awaiting exit or the interrupt grace period
    | Killing(inCatch: bool)    // awaiting kill(), from the try block or from its catch
    | KillWait                  // awaiting exit or the kill grace period
    | StopDone(threw: bool)

  /** An activation of `stopActiveAsctProcess` with what it captured. */
  datatype StopCall =
    | NoProcess
    | StopCall(handle: Handle, tracker: Option<Tracker>, pc: StopPc)

  datatype RunPc =
    | At(op: nat)
    | Awaiting(op: nat)
    | Updating(op: nat)                              // awaiting the initial progress update
    | Launching(op: nat)                             // awaiting startProcess
    | Stopping(op: nat, handle: Handle, call: nat)   // awaiting its own stop of the process
    | Waiting(op: nat, handle: Handle)               // awaiting exit and stream drains
    | Normalizing(op: nat, failed: bool)             // awaiting output access repair
    | Settled(ok: bool)

  datatype State = State(
    program: seq<Op>,
    interrupt: Option<Interrupt>,
    activeHandle: Option<Handle>,
    activeTracker: Option<Tracker>,
    setupHandle: Option<Handle>,
    runHandle: Option<Handle>,
    launched: seq<Tracker>,     // the tracker each handle was launched for
    exitCode: int,
    pc: RunPc,
    calls: seq<StopCall>,
    log: seq<Event>
  )

  /** What an awaited call answers. */
  datatype Outcome = Done | Fails | TimedOut | Exits(code: int)

  datatype Label =
    | Request(kind: Interrupt)
    | RunStep(outcome: Outcome)
    | StopStep(call: nat, outcome: Outcome)

  const PendingCheck: seq<Op> := [Check, Await, Check]

  /** The operations of `run`, with or without a reusable cached install. */
  function Program(rebuild: bool): seq<Op> {
    [Check, Await] + PendingCheck + [Await, Check, Await]
    + (if rebuild then
         [Await, Check, Await]
         + [Stage(VenvSetup)] + PendingCheck + [ExpectZero] + PendingCheck + PendingCheck
         + [Stage(PackageInstall)] + PendingCheck + [ExpectZero]
         + [Check, Await]
       else [])
    + [Check, Await, Check, Check, Stage(Benchmarks), Check, ExpectZero]
  }

  function Init(rebuild: bool): State {
    State(Program(rebuild), None, None, None, None, None, [], 0, At(0), [], [])
  }

  function Emit(s: State, e: Event): State {
    s.(log := s.log + [e])
  }

  // ---- bookkeeping helpers ----

  function RegisterActiveProcess(s: State, h: Handle, t: Tracker): State {
    s.(activeHandle := Some(h), activeTracker := Some(t))
  }

  function ClearActiveProcess(s: State, h: Handle): State {
    if s.activeHandle == Some(h) then s.(activeHandle := None, activeTracker := None) else s
  }

  function EndTrackedProgress(s: State, t: Tracker): State {
    if s.activeTracker == Some(t) then Emit(s, Ended(t)).(activeTracker := None) else s
  }

  function Unless(slot: Option<Handle>, h: Handle): Option<Handle> {
    if slot == Some(h) then None else slot
  }

  // ---- stopActiveAsctProcess ----

  function BeginStop(s: State): State {
    match s.activeHandle
    case None => s.(calls := s.calls + [NoProcess])
    case Some(h) =>
      Emit(s, Interrupted(h, |s.calls|)).(calls := s.calls + [StopCall(h, s.activeTracker, Interrupting)])
  }

  function SetCall(s: State, i: nat, pc: StopPc): State
    requires i < |s.calls| && s.calls[i].StopCall?
  {
    s.(calls := s.calls[i := s.calls[i].(pc := pc)])
  }

  function BeginKill(s: State, i: nat, inCatch: bool): State
    requires i < |s.calls| && s.calls[i].StopCall?
  {
    SetCall(Emit(s, Killed(s.calls[i].handle, i)), i, Killing(inCatch))
  }

  /** The `finally` block. */
  function FinishStop(s: State, i: nat, threw: bool): State
    requires i < |s.calls| && s.calls[i].StopCall?
  {
    var c := s.calls[i];
    var s1 := if c.tracker.Some? then EndTrackedProgress(s, c.tracker.value) else s;
    var s2 := ClearActiveProcess(s1, c.handle);
    SetCall(s2.(runHandle := Unless(s2.runHandle, c.handle), setupHandle := Unless(s2.setupHandle, c.handle)),
            i, StopDone(threw))
  }

  predicate StopEnabled(s: State, i: nat, o: Outcome) {
    && i < |s.calls| && s.calls[i].StopCall?
    && match s.calls[i].pc
       case Interrupting => o.Done? || o.Fails?
       case InterruptWait => true
       case Killing(_) => o.Done? || o.Fails?
       case KillWait => true
       case StopDone(_) => false
  }

  function ApplyStop(s: State, i: nat, o: Outcome): State
    requires StopEnabled(s, i, o)
  {
    match s.calls[i].pc
    case Interrupting =>
      if o.Done? then SetCall(s, i, InterruptWait) else BeginKill(s, i, true)
    case InterruptWait =>
      if o.TimedOut? then BeginKill(s, i, false)
      else if o.Fails? then BeginKill(s, i, true)
      else FinishStop(s, i, false)
    case Killing(inCatch) =>
      if o.Done? then SetCall(s, i, KillWait)
      else if inCatch then FinishStop(s, i, true)
      else BeginKill(s, i, true)
    case KillWait => FinishStop(s, i, false)
  }

  // ---- runTrackedProcess and run ----

  predicate InStage(s: State) {
    match s.pc
    case Updating(op) => op < |s.program| && s.program[op].Stage?
    case Launching(op) => op < |s.program| && s.program[op].Stage?
    case Stopping(op, h, call) => op < |s.program| && s.program[op].Stage? && call < |s.calls|
    case Waiting(op, h) => op < |s.program| && s.program[op].Stage?
    case _ => false
  }

  function StageTracker(s: State): Tracker
    requires InStage(s)
  {
    s.program[s.pc.op].tracker
  }

  /** Where `run` goes when a tracked process returns or throws: the benchmark stage has
      its own `finally` that repairs output access. */
  function LeaveStage(s: State, failed: bool): State
    requires InStage(s)
  {
    if StageTracker(s).Benchmarks? then s.(pc := Normalizing(s.pc.op, failed))
    else if failed then s.(pc := Settled(false))
    else s.(pc := At(s.pc.op + 1))
  }

  /** The `finally` block of `runTrackedProcess` for a launched process. */
  function FinishTracked(s: State, h: Handle, progressEnded: bool): State
    requires InStage(s)
  {
    var t := StageTracker(s);
    var s1 := if !progressEnded && s.activeTracker == Some(t) then Emit(s, Ended(t)) else s;
    var s2 := ClearActiveProcess(s1, h);
    if t.Benchmarks? then s2.(runHandle := Unless(s2.runHandle, h))
    else s2.(setupHandle := Unless(s2.setupHandle, h))
  }

  function BeginWait(s: State, op: nat, h: Handle): State {
    Emit(s, Waited(h)).(pc := Waiting(op, h))
  }

  /** `startProcess` resolved with a new handle. */
  function AfterLaunch(s: State): State
    requires s.pc.Launching? && InStage(s)
  {
    var h, t, op := |s.launched|, StageTracker(s), s.pc.op;
    var s1 := Emit(s, Launched(h)).(launched := s.launched + [t]);
    var s2 := if t.Benchmarks? then s1.(runHandle := Some(h)) else s1.(setupHandle := Some(h));
    var s3 := RegisterActiveProcess(s2, h, t);
    if s3.interrupt.Some?
    then BeginStop(s3).(pc := Stopping(op, h, |s3.calls|))
    else BeginWait(s3, op, h)
  }

  /** The process wait and the drains settled. */
  function AfterWait(s: State, o: Outcome): State
    requires s.pc.Waiting? && InStage(s)
  {
    var completed := o.Exits? && s.interrupt.None?;
    var success := completed && o.code == 0;
    var s1 := if success then EndTrackedProgress(s, StageTracker(s)) else s;
    var s2 := if completed then s1.(exitCode := o.code) else s1;
    LeaveStage(FinishTracked(s2, s.pc.handle, success), !completed)
  }

  predicate RunEnabled(s: State, o: Outcome) {
    match s.pc
    case At(op) => op <= |s.program| && o.Done?
    case Awaiting(op) => op < |s.program| && (o.Done? || o.Fails?)
    case Updating(_) => InStage(s) && o.Done?
    case Launching(_) => InStage(s) && (o.Done? || o.Fails?)
    case Stopping(_, _, call) =>
      InStage(s) && o.Done? && (s.calls[call].NoProcess? || s.calls[call].pc.StopDone?)
    case Waiting(_, _) => InStage(s) && (o.Exits? || o.Fails?)
    case Normalizing(op, _) => op < |s.program| && o.Done?
    case Settled(_) => false
  }

  function ApplyOp(s: State): State
    requires s.pc.At? && s.pc.op <= |s.program|
  {
    var op := s.pc.op;
    if op == |s.program| then Emit(s, Returned).(pc := Settled(true))
    else
      match s.program[op]
      case Check =>
        if s.interrupt.Some? then s.(pc := Settled(false)) else Emit(s, Checked).(pc := At(op + 1))
      case Await => s.(pc := Awaiting(op))
      case Stage(t) => Emit(s, Started(t)).(pc := if t.Benchmarks? then Updating(op) else Launching(op))
      case ExpectZero => if s.exitCode == 0 then s.(pc := At(op + 1)) else s.(pc := Settled(false))
  }

  function ApplyRun(s: State, o: Outcome): State
    requires RunEnabled(s, o)
  {
    match s.pc
    case At(_) => ApplyOp(s)
    case Awaiting(op) => if o.Done? then s.(pc := At(op + 1)) else s.(pc := Settled(false))
    case Updating(op) => s.(pc := Launching(op))
    case Launching(op) =>
      if o.Done? then AfterLaunch(s)
      else LeaveStage(Emit(s, Ended(StageTracker(s))), true)
    case Stopping(op, h, call) =>
      if s.calls[call].StopCall? && s.calls[call].pc.threw
      then LeaveStage(FinishTracked(s, h, false), true)
      else BeginWait(s, op, h)
    case Waiting(_, _) => AfterWait(s, o)
    case Normalizing(op, failed) => if failed then s.(pc := Settled(false)) else s.(pc := At(op + 1))
  }

  predicate Enabled(s: State, l: Label) {
    match l
    case Request(_) => true
    case RunStep(o) => RunEnabled(s, o)
    case StopStep(i, o) => StopEnabled(s, i, o)
  }

  function Apply(s: State, l: Label): State
    requires Enabled(s, l)
  {
    match l
    case Request(kind) => BeginStop(Emit(s, Requested(kind)).(interrupt := Some(kind)))
    case RunStep(o) => ApplyRun(s, o)
    case StopStep(i, o) => ApplyStop(s, i, o)
  }

  /** The state after the given interleaving, if every step of it can happen. */
  function Exec(rebuild: bool, labels: seq<Label>): Option<State> {
    if labels == [] then Some(Init(rebuild))
    else
      var l := labels[|labels| - 1];
      match Exec(rebuild, labels[..|labels| - 1])
      case None => None
      case Some(s) => if Enabled(s, l) then Some(Apply(s, l)) else None
  }

  /** `ctx.metadata` with the positions of `run` and of the callbacks. Every method is the
      code between two awaits, acting on the shared fields in place. */
  class AsctTool {
    const program: seq<Op>
    var interrupt: Option<Interrupt>
    var activeHandle: Option<Handle>
    var activeTracker: Option<Tracker>
    var setupHandle: Option<Handle>
    var runHandle: Option<Handle>
    var launched: seq<Tracker>
    var exitCode: int
    var pc: RunPc
    var calls: seq<StopCall>
    var log: seq<Event>

    function View(): State
      reads this
    {
      State(program, interrupt, activeHandle, activeTracker, setupHandle, runHandle,
            launched, exitCode, pc, calls, log)
    }

    constructor (rebuild: bool)
      ensures View() == Init(rebuild)
    {
      program := Program(rebuild);
      interrupt, activeHandle, activeTracker, setupHandle, runHandle := None, None, None, None, None;
      launched, exitCode, pc, calls, log := [], 0, At(0), [], [];
    }

    method Register(h: Handle, t: Tracker)
      modifies this`activeHandle, this`activeTracker
      ensures View() == RegisterActiveProcess(old(View()), h, t)
    {
      activeHandle := Some(h);
      activeTracker := Some(t);
    }

    method Clear(h: Handle)
      modifies this`activeHandle, this`activeTracker
      ensures View() == ClearActiveProcess(old(View()), h)
    {
      if activeHandle != Some(h) {
        return;
      }
      activeHandle := None;
      activeTracker := None;
    }

    method EndTracked(t: Tracker)
      modifies this`activeTracker, this`log
      ensures View() == EndTrackedProgress(old(View()), t)
    {
      if activeTracker != Some(t) {
        return;
      }
      log := log + [Ended(t)];
      activeTracker := None;
    }

    /** `stopActiveAsctProcess` up to its first await. */
    method StopActive()
      modifies this`calls, this`log
      ensures View() == BeginStop(old(View()))
    {
      if activeHandle.None? {
        calls := calls + [NoProcess];
        return;
      }
      log := log + [Interrupted(activeHandle.value, |calls|)];
      calls := calls + [StopCall(activeHandle.value, activeTracker, Interrupting)];
    }

    /** `onStop` and `onCancel`. */
    method OnRequest(kind: Interrupt)
      modifies this`interrupt, this`calls, this`log
      ensures View() == Apply(old(View()), Request(kind))
    {
      log := log + [Requested(kind)];
      interrupt := Some(kind);
      StopActive();
    }

    /** The `finally` block of `stopActiveAsctProcess`. */
    method LeaveStop(i: nat, threw: bool)
      requires i < |calls| && calls[i].StopCall?
      modifies this
      ensures View() == FinishStop(old(View()), i, threw)
    {
      var c := calls[i];
      if c.tracker.Some? {
        EndTracked(c.tracker.value);
      }
      Clear(c.handle);
      if runHandle == Some(c.handle) {
        runHandle := None;
      }
      if setupHandle == Some(c.handle) {
        setupHandle := None;
      }
      calls := calls[i := c.(pc := StopDone(threw))];
    }

    /** `runTrackedProcess` from the resolved launch to its next await. */
    method LaunchResolved()
      requires pc.Launching? && InStage(View())
      modifies this
      ensures View() == AfterLaunch(old(View()))
    {
      var h, t := |launched|, program[pc.op].tracker;
      log := log + [Launched(h)];
      launched := launched + [t];
      if t.Benchmarks? {
        runHandle := Some(h);
      } else {
        setupHandle := Some(h);
      }
      Register(h, t);
      if interrupt.Some? {
        pc := Stopping(pc.op, h, |calls|);
        StopActive();
      } else {
        log := log + [Waited(h)];
        pc := Waiting(pc.op, h);
      }
    }

    /** The `finally` block of `runTrackedProcess`, for a launched process. */
    method LeaveTracked(h: Handle, progressEnded: bool)
      requires InStage(View())
      modifies this
      ensures View() == FinishTracked(old(View()), h, progressEnded)
    {
      var t := program[pc.op].tracker;
      if !progressEnded && activeTracker == Some(t) {
        log := log + [Ended(t)];
      }
      Clear(h);
      if t.Benchmarks? {
        if runHandle == Some(h) {
          runHandle := None;
        }
      } else if setupHandle == Some(h) {
        setupHandle := None;
      }
    }

    /** `runTrackedProcess` after the process wait and the drains. */
    method WaitSettled(o: Outcome)
      requires pc.Waiting? && InStage(View())
      modifies this
      ensures View() == AfterWait(old(View()), o)
    {
      var t, h := program[pc.op].tracker, pc.handle;
      var completed, progressEnded := false, false;
      if o.Exits? && interrupt.None? {
        completed := true;
        exitCode := o.code;
        if o.code == 0 {
          EndTracked(t);
          progressEnded := true;
        }
      }
      LeaveTracked(h, progressEnded);
      EndStage(!completed);
    }

    /** `runTrackedProcess` returns or throws to `run`. */
    method EndStage(failed: bool)
      requires InStage(View())
      modifies this`pc
      ensures View() == LeaveStage(old(View()), failed)
    {
      if program[pc.op].tracker.Benchmarks? {
        pc := Normalizing(pc.op, failed);
      } else if failed {
        pc := Settled(false);
      } else {
        pc := At(pc.op + 1);
      }
    }

    /** `run` up to its next await. */
    method NextOp()
      requires pc.At? && pc.op <= |program|
      modifies this`pc, this`log
      ensures View() == ApplyOp(old(View()))
    {
      var op := pc.op;
      if op == |program| {
        log := log + [Returned];
        pc := Settled(true);
        return;
      }
      match program[op]
      case Check =>
        if interrupt.Some? {
          pc := Settled(false);
        } else {
          log := log + [Checked];
          pc := At(op + 1);
        }
      case Await => pc := Awaiting(op);
      case Stage(t) =>
        log := log + [Started(t)];
        pc := if t.Benchmarks? then Updating(op) else Launching(op);
      case ExpectZero =>
        pc := if exitCode == 0 then At(op + 1) else Settled(false);
    }

    /** A launch has been answered, or the stop that followed it. */
    method LaunchStep(o: Outcome)
      requires (pc.Launching? || pc.Stopping?) && RunEnabled(View(), o)
      modifies this
      ensures View() == ApplyRun(old(View()), o)
    {
      if pc.Launching? {
        if o.Done? {
          LaunchResolved();
        } else {
          log := log + [Ended(program[pc.op].tracker)];
          EndStage(true);
        }
      } else if calls[pc.call].StopCall? && calls[pc.call].pc.threw {
        LeaveTracked(pc.handle, false);
        EndStage(true);
      } else {
        log := log + [Waited(pc.handle)];
        pc := Waiting(pc.op, pc.handle);
      }
    }

    /** `run` goes on with the answer to what it awaited. */
    method Resume(o: Outcome)
      requires RunEnabled(View(), o)
      modifies this
      ensures View() == ApplyRun(old(View()), o)
    {
      match pc
      case At(_) => NextOp();
      case Awaiting(op) => pc := if o.Done? then At(op + 1) else Settled(false);
      case Updating(op) => pc := Launching(op);
      case Launching(_) => LaunchStep(o);
      case Stopping(_, _, _) => LaunchStep(o);
      case Waiting(_, _) => WaitSettled(o);
      case Normalizing(op, failed) => pc := if failed then Settled(false) else At(op + 1);
    }

    /** The interrupt was not enough. */
    method Kill(i: nat, inCatch: bool)
      requires i < |calls| && calls[i].StopCall?
      modifies this`calls, this`log
      ensures View() == BeginKill(old(View()), i, inCatch)
    {
      log := log + [Killed(calls[i].handle, i)];
      calls := calls[i := calls[i].(pc := Killing(inCatch))];
    }

    /** `stopActiveAsctProcess` goes on with the answer to what it awaited. */
    method ResumeStop(i: nat, o: Outcome)
      requires StopEnabled(View(), i, o)
      modifies this
      ensures View() == ApplyStop(old(View()), i, o)
    {
      match calls[i].pc
      case Interrupting =>
        if o.Done? {
          calls := calls[i := calls[i].(pc := InterruptWait)];
        } else {
          Kill(i, true);
        }
      case InterruptWait =>
        if o.TimedOut? || o.Fails? {
          Kill(i, o.Fails?);
        } else {
          LeaveStop(i, false);
        }
      case Killing(inCatch) =>
        if o.Done? {
          calls := calls[i := calls[i].(pc := KillWait)];
        } else if inCatch {
          LeaveStop(i, true);
        } else {
          Kill(i, true);
        }
      case KillWait => LeaveStop(i, false);
    }

    /** Any step of an interleaving. */
    method Perform(l: Label)
      requires Enabled(View(), l)
      modifies this
      ensures View() == Apply(old(View()), l)
    {
      match l
      case Request(kind) => OnRequest(kind);
      case RunStep(o) => Resume(o);
      case StopStep(i, o) => ResumeStop(i, o);
    }
  }
}
