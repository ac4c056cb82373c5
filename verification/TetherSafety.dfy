/** Safety of the tether over every interleaving: when the handler may run, what an
    ACK-timeout report proves about the preceding silence, and how long a silence can
    go unnoticed. */
module TetherSafety {
  import opened Tether

  predicate TimerIdle(s: State) {
    s.deadline.Off? && !s.fired
  }

  /** The `Once` and the handler: one call, made by whoever is inside the `Once`. */
  predicate OnceInv(c: Config, s: State) {
    && (s.once.Unused? ==> s.reported == [])
    && (!s.once.Unused? ==> |s.reported| == if c.hasHandler then 1 else 0)
    && (s.once.Running? <==> s.pulse.PulseInHandler? || s.ack.AckInHandler?)
    && !(s.pulse.PulseInHandler? && s.ack.AckInHandler?)
    && (s.once.Finished? ==> s.cancelled)
    && (s.sendClosed ==> s.cancelled)
  }

  /** The error channel carries only the receiver's last word. */
  predicate ErrorInv(s: State) {
    && (s.errorQueued ==> s.receiver.ReceiverDone?)
    && (s.ack.ErrorTaken? ==> s.receiver.ReceiverDone? && !s.errorQueued)
  }

  /** The timer is armed or has fired, never both, exactly while the loop waits on it. */
  predicate TimerInv(s: State) {
    && !(s.deadline.At? && s.fired)
    && (s.ack.AckSelect? ==> !TimerIdle(s))
    && (s.ack.DeadlineTaken? || s.ack.ResettingTimer? || s.ack == AckSignal(AckTimeout) ==> TimerIdle(s))
    && (s.ack.AckDone? ==> s.deadline.Off?)
  }

  predicate MissInv(c: Config, s: State) {
    && (s.ack.AckSelect? || s.ack.DeadlineTaken? || s.ack.ResettingTimer? || s.ack.ErrorTaken? ==>
          s.missedAcks < Needed(c))
    && (s.ack.AckTaken? ==> s.missedAcks == 0)
    && (s.ack == AckSignal(AckTimeout) ==> s.missedAcks == Needed(c))
  }

  predicate ReportInv(c: Config, s: State) {
    AckTimeout in s.reported ==> s.missedAcks == Needed(c) && (s.ack.AckInHandler? || s.ack.AckDone?)
  }

  /** What every reachable state satisfies. */
  predicate Inv(c: Config, s: State) {
    OnceInv(c, s) && ErrorInv(s) && TimerInv(s) && MissInv(c, s) && ReportInv(c, s)
  }

  // ---- what a step touches ----

  lemma OutsideFrame(c: Config, s: State, e: Event)
    requires Happens(s, e)
    ensures var t := ApplyOutside(s, e);
            t == s.(now := t.now, cancelled := t.cancelled, deadline := t.deadline, fired := t.fired)
            && t.now >= s.now && (s.cancelled ==> t.cancelled)
            && (if e.TimerFires? then s.deadline.At? && s.deadline.moment <= s.now && t.deadline == Off && t.fired
                                      && t.now == s.now
                else t.deadline == s.deadline && t.fired == s.fired)
  {
  }

  lemma PulseFrame(c: Config, s: State, p: PulseStep)
    requires PulseMay(s, p)
    ensures var t := ApplyPulse(c, s, p);
            t == s.(pulse := t.pulse, once := t.once, reported := t.reported, cancelled := t.cancelled,
                    sendClosed := t.sendClosed)
            && (s.cancelled ==> t.cancelled) && !TakesAck(s, Pulse(p)) && !Misses(s, Pulse(p))
            && (t.reported == s.reported || t.reported == s.reported + [StreamFailure])
  {
  }

  lemma ReceiverFrame(c: Config, s: State, p: ReceiverStep)
    requires ReceiverMay(s, p)
    ensures var t := ApplyReceiver(s, p);
            t == s.(receiver := t.receiver, ackQueued := t.ackQueued, errorQueued := t.errorQueued)
            && t.ackQueued == (s.ackQueued || p.PostAck?) && !TakesAck(s, Receiver(p)) && !Misses(s, Receiver(p))
  {
  }

  // ---- every step keeps the invariants ----

  lemma PulseKeepsOnceInv(c: Config, s: State, p: PulseStep)
    requires OnceInv(c, s) && PulseMay(s, p)
    ensures OnceInv(c, ApplyPulse(c, s, p))
  {
  }

  lemma BranchKeepsOnceInv(c: Config, s: State, p: BranchStep)
    requires OnceInv(c, s) && BranchMay(s, p)
    ensures OnceInv(c, ApplyBranch(c, s, p))
  {
  }

  lemma SelectKeepsOnceInv(c: Config, s: State, p: SelectStep)
    requires OnceInv(c, s) && SelectMay(s, p)
    ensures OnceInv(c, ApplySelect(s, p))
  {
  }

  lemma StepKeepsOnceInv(c: Config, s: State, l: Label)
    requires OnceInv(c, s) && Enabled(s, l)
    ensures OnceInv(c, Apply(c, s, l))
  {
    match l
    case Outside(e) => OutsideFrame(c, s, e);
    case Pulse(p) => PulseKeepsOnceInv(c, s, p);
    case Receiver(p) => ReceiverFrame(c, s, p);
    case Select(p) => SelectKeepsOnceInv(c, s, p);
    case Branch(p) => BranchKeepsOnceInv(c, s, p);
  }

  lemma ReceiverKeepsErrorInv(c: Config, s: State, p: ReceiverStep)
    requires ErrorInv(s) && ReceiverMay(s, p)
    ensures ErrorInv(ApplyReceiver(s, p))
  {
  }

  lemma SelectKeepsErrorInv(c: Config, s: State, p: SelectStep)
    requires ErrorInv(s) && SelectMay(s, p)
    ensures ErrorInv(ApplySelect(s, p))
  {
  }

  lemma BranchKeepsErrorInv(c: Config, s: State, p: BranchStep)
    requires ErrorInv(s) && BranchMay(s, p)
    ensures ErrorInv(ApplyBranch(c, s, p))
  {
  }

  lemma StepKeepsErrorInv(c: Config, s: State, l: Label)
    requires ErrorInv(s) && Enabled(s, l)
    ensures ErrorInv(Apply(c, s, l))
  {
    match l
    case Outside(e) => OutsideFrame(c, s, e);
    case Pulse(p) => PulseFrame(c, s, p);
    case Receiver(p) => ReceiverKeepsErrorInv(c, s, p);
    case Select(p) => SelectKeepsErrorInv(c, s, p);
    case Branch(p) => BranchKeepsErrorInv(c, s, p);
  }

  lemma SelectKeepsTimerInv(c: Config, s: State, p: SelectStep)
    requires TimerInv(s) && SelectMay(s, p)
    ensures TimerInv(ApplySelect(s, p))
  {
  }

  lemma BranchKeepsTimerInv(c: Config, s: State, p: BranchStep)
    requires TimerInv(s) && BranchMay(s, p)
    ensures TimerInv(ApplyBranch(c, s, p))
  {
  }

  lemma StepKeepsTimerInv(c: Config, s: State, l: Label)
    requires TimerInv(s) && Enabled(s, l)
    ensures TimerInv(Apply(c, s, l))
  {
    match l
    case Outside(e) => OutsideFrame(c, s, e);
    case Pulse(p) => PulseFrame(c, s, p);
    case Receiver(p) => ReceiverFrame(c, s, p);
    case Select(p) => SelectKeepsTimerInv(c, s, p);
    case Branch(p) => BranchKeepsTimerInv(c, s, p);
  }

  lemma SelectKeepsMissInv(c: Config, s: State, p: SelectStep)
    requires MissInv(c, s) && SelectMay(s, p)
    ensures MissInv(c, ApplySelect(s, p))
  {
  }

  lemma BranchKeepsMissInv(c: Config, s: State, p: BranchStep)
    requires MissInv(c, s) && BranchMay(s, p)
    ensures MissInv(c, ApplyBranch(c, s, p))
  {
  }

  lemma StepKeepsMissInv(c: Config, s: State, l: Label)
    requires MissInv(c, s) && Enabled(s, l)
    ensures MissInv(c, Apply(c, s, l))
  {
    match l
    case Outside(e) => OutsideFrame(c, s, e);
    case Pulse(p) => PulseFrame(c, s, p);
    case Receiver(p) => ReceiverFrame(c, s, p);
    case Select(p) => SelectKeepsMissInv(c, s, p);
    case Branch(p) => BranchKeepsMissInv(c, s, p);
  }

  lemma SelectKeepsReportInv(c: Config, s: State, p: SelectStep)
    requires ReportInv(c, s) && SelectMay(s, p)
    ensures ReportInv(c, ApplySelect(s, p))
  {
  }

  lemma BranchKeepsReportInv(c: Config, s: State, p: BranchStep)
    requires MissInv(c, s) && OnceInv(c, s) && ReportInv(c, s) && BranchMay(s, p)
    ensures ReportInv(c, ApplyBranch(c, s, p))
  {
    var t := ApplyBranch(c, s, p);
    if t.reported != s.reported {
      assert s.reported == [];
    }
  }

  lemma StepKeepsReportInv(c: Config, s: State, l: Label)
    requires MissInv(c, s) && OnceInv(c, s) && ReportInv(c, s) && Enabled(s, l)
    ensures ReportInv(c, Apply(c, s, l))
  {
    match l
    case Outside(e) => OutsideFrame(c, s, e);
    case Pulse(p) => PulseFrame(c, s, p);
    case Receiver(p) => ReceiverFrame(c, s, p);
    case Select(p) => SelectKeepsReportInv(c, s, p);
    case Branch(p) => BranchKeepsReportInv(c, s, p);
  }

  lemma StepKeepsInv(c: Config, s: State, l: Label)
    requires Inv(c, s) && Enabled(s, l)
    ensures Inv(c, Apply(c, s, l))
  {
    StepKeepsOnceInv(c, s, l);
    StepKeepsErrorInv(c, s, l);
    StepKeepsTimerInv(c, s, l);
    StepKeepsMissInv(c, s, l);
    StepKeepsReportInv(c, s, l);
  }

  lemma StepOfRunKeepsInv(c: Config, r: Run, k: nat)
    requires IsRun(c, r) && k < |r.labels| && Inv(c, r.states[k])
    ensures Inv(c, r.states[k + 1])
  {
    assert StepAt(c, r, k);
    StepKeepsInv(c, r.states[k], r.labels[k]);
  }

  lemma {:induction false} RunKeepsInv(c: Config, r: Run, k: nat)
    requires IsRun(c, r) && k <= |r.labels|
    ensures Inv(c, r.states[k])
  {
    if k > 0 {
      RunKeepsInv(c, r, k - 1);
      StepOfRunKeepsInv(c, r, k - 1);
    }
  }

  /** Whichever of the three failures race, the handler is called at most once, and a
      call is a stream failure or an exhausted miss count. */
  lemma HandlerRunsAtMostOnce(c: Config, r: Run, k: nat)
    requires IsRun(c, r) && k <= |r.labels|
    ensures |r.states[k].reported| <= 1
    ensures !c.hasHandler ==> r.states[k].reported == []
    ensures r.states[k].once.Finished? ==> r.states[k].cancelled
    ensures AckTimeout in r.states[k].reported ==> r.states[k].missedAcks == Needed(c)
  {
    RunKeepsInv(c, r, k);
  }

  /** The receiver's send on the error channel always finds room. */
  lemma ErrorSendNeverBlocks(c: Config, r: Run, k: nat)
    requires IsRun(c, r) && k <= |r.labels| && r.states[k].receiver.PostingError?
    ensures Enabled(r.states[k], Receiver(PostError))
  {
    RunKeepsInv(c, r, k);
  }

  predicate FailurePending(s: State) {
    || s.pulse.PulseSignal? || s.pulse.PulseInHandler?
    || s.receiver.PostingError? || s.errorQueued
    || s.ack.ErrorTaken? || s.ack == AckSignal(StreamFailure)
    || StreamFailure in s.reported
    || (s.pulse.PulseDone? && !s.sendClosed)
  }

  ghost predicate FailedBefore(r: Run, k: nat)
    requires k <= |r.labels|
  {
    exists i: nat :: i < k && (r.labels[i] == Pulse(SendFails) || r.labels[i] == Receiver(RecvFails))
  }

  lemma PulseBringsFailure(c: Config, s: State, p: PulseStep)
    requires PulseMay(s, p) && FailurePending(ApplyPulse(c, s, p))
    ensures FailurePending(s) || p.SendFails?
  {
  }

  lemma ReceiverBringsFailure(s: State, p: ReceiverStep)
    requires ReceiverMay(s, p) && FailurePending(ApplyReceiver(s, p))
    ensures FailurePending(s) || p.RecvFails?
  {
  }

  lemma SelectBringsNoFailure(s: State, p: SelectStep)
    requires SelectMay(s, p) && FailurePending(ApplySelect(s, p))
    ensures FailurePending(s)
  {
  }

  lemma BranchBringsNoFailure(c: Config, s: State, p: BranchStep)
    requires ErrorInv(s) && BranchMay(s, p) && FailurePending(ApplyBranch(c, s, p))
    ensures FailurePending(s)
  {
  }

  lemma OutsideBringsNoFailure(s: State, e: Event)
    requires Happens(s, e) && FailurePending(ApplyOutside(s, e))
    ensures FailurePending(s)
  {
  }

  lemma StepBringsFailure(c: Config, s: State, l: Label)
    requires ErrorInv(s) && Enabled(s, l) && FailurePending(Apply(c, s, l))
    ensures FailurePending(s) || l == Pulse(SendFails) || l == Receiver(RecvFails)
  {
    match l
    case Outside(e) => OutsideBringsNoFailure(s, e);
    case Pulse(p) => PulseBringsFailure(c, s, p);
    case Receiver(p) => ReceiverBringsFailure(s, p);
    case Select(p) => SelectBringsNoFailure(s, p);
    case Branch(p) => BranchBringsNoFailure(c, s, p);
  }

  lemma {:induction false} FailureCause(c: Config, r: Run, k: nat)
    requires IsRun(c, r) && k <= |r.labels|
    ensures FailurePending(r.states[k]) ==> FailedBefore(r, k)
  {
    if k > 0 && FailurePending(r.states[k]) {
      assert StepAt(c, r, k - 1);
      RunKeepsInv(c, r, k - 1);
      StepBringsFailure(c, r.states[k - 1], r.labels[k - 1]);
      if FailurePending(r.states[k - 1]) {
        FailureCause(c, r, k - 1);
      }
    }
  }

  /** A reported stream failure is preceded by a Send or Recv that failed. */
  lemma StreamReportNeedsFailure(c: Config, r: Run, k: nat)
    requires IsRun(c, r) && k <= |r.labels|
    requires StreamFailure in r.states[k].reported
    ensures FailedBefore(r, k)
  {
    FailureCause(c, r, k);
  }

  /** A pulse loop that returns without closing its side has seen a failure. */
  lemma PulseLoopClosesSend(c: Config, r: Run, k: nat)
    requires IsRun(c, r) && k <= |r.labels|
    requires r.states[k].pulse.PulseDone? && !FailedBefore(r, k)
    ensures r.states[k].sendClosed && r.states[k].cancelled
  {
    FailureCause(c, r, k);
    RunKeepsInv(c, r, k);
  }

  // ---- the lower bound: a timeout report needs a long silence ----

  predicate TakesAck(s: State, l: Label) {
    l == Select(TakeAck) || (l == Branch(Recheck) && s.ackQueued)
  }

  predicate Misses(s: State, l: Label) {
    l == Branch(Recheck) && !s.ackQueued
  }

  /** The position of the state reached by the last consumed ACK, or 0. */
  function LastTake(r: Run, k: nat): (j: nat)
    requires |r.states| == |r.labels| + 1 && k <= |r.labels|
    ensures j <= k
    ensures j > 0 ==> TakesAck(r.states[j - 1], r.labels[j - 1])
    ensures forall i: nat :: j <= i < k ==> !TakesAck(r.states[i], r.labels[i])
  {
    if k == 0 then 0
    else if TakesAck(r.states[k - 1], r.labels[k - 1]) then k
    else LastTake(r, k - 1)
  }

  /** How many deadlines were missed from step `j` up to, not including, step `k`. */
  function MissCount(r: Run, j: nat, k: nat): nat
    requires |r.states| == |r.labels| + 1 && j <= k <= |r.labels|
  {
    if j == k then 0
    else MissCount(r, j, k - 1) + if Misses(r.states[k - 1], r.labels[k - 1]) then 1 else 0
  }

  ghost predicate NoAckPosted(r: Run, j: nat, k: nat)
    requires j <= k <= |r.labels|
  {
    forall i: nat :: j <= i < k ==> r.labels[i] != Receiver(PostAck)
  }

  /** Time accounting since `start`, the moment the last ACK was taken. */
  predicate ClockFloor(c: Config, s: State, start: nat) {
    && s.now >= start
    && (s.ack.AckSelect? && s.deadline.At? ==> s.deadline.moment >= start + (s.missedAcks + 1) * c.ackTimeout)
    && (s.ack.AckSelect? && s.fired ==> s.now >= start + (s.missedAcks + 1) * c.ackTimeout)
    && (s.ack.DeadlineTaken? ==> s.now >= start + (s.missedAcks + 1) * c.ackTimeout)
    && (s.ack.ResettingTimer? || s.ack == AckSignal(AckTimeout) ==> s.now >= start + s.missedAcks * c.ackTimeout)
  }

  lemma SelectKeepsClockFloor(c: Config, s: State, p: SelectStep, start: nat)
    requires Inv(c, s) && SelectMay(s, p) && ClockFloor(c, s, start)
    ensures ClockFloor(c, ApplySelect(s, p), if TakesAck(s, Select(p)) then s.now else start)
  {
  }

  lemma BranchKeepsClockFloor(c: Config, s: State, p: BranchStep, start: nat)
    requires Inv(c, s) && BranchMay(s, p) && ClockFloor(c, s, start)
    ensures ClockFloor(c, ApplyBranch(c, s, p), if TakesAck(s, Branch(p)) then s.now else start)
  {
    NextMultiple(s.missedAcks, c.ackTimeout);
  }

  lemma NextMultiple(n: nat, t: nat)
    ensures (n + 1) * t == n * t + t && 0 * t == 0
  {
  }

  lemma OutsideKeepsClockFloor(c: Config, s: State, e: Event, start: nat)
    requires Happens(s, e) && ClockFloor(c, s, start)
    ensures ClockFloor(c, ApplyOutside(s, e), start) && !TakesAck(s, Outside(e))
  {
    OutsideFrame(c, s, e);
  }

  lemma StepKeepsClockFloor(c: Config, s: State, l: Label, start: nat)
    requires Inv(c, s) && Enabled(s, l) && ClockFloor(c, s, start)
    ensures ClockFloor(c, Apply(c, s, l), if TakesAck(s, l) then s.now else start)
  {
    match l
    case Outside(e) => OutsideKeepsClockFloor(c, s, e, start);
    case Pulse(p) => PulseFrame(c, s, p);
    case Receiver(p) => ReceiverFrame(c, s, p);
    case Select(p) => SelectKeepsClockFloor(c, s, p, start);
    case Branch(p) => BranchKeepsClockFloor(c, s, p, start);
  }

  lemma {:induction false} FloorSinceLastTake(c: Config, r: Run, k: nat)
    requires IsRun(c, r) && k <= |r.labels|
    ensures ClockFloor(c, r.states[k], r.states[LastTake(r, k)].now)
  {
    if k > 0 {
      FloorSinceLastTake(c, r, k - 1);
      RunKeepsInv(c, r, k - 1);
      assert StepAt(c, r, k - 1);
      StepKeepsClockFloor(c, r.states[k - 1], r.labels[k - 1], r.states[LastTake(r, k - 1)].now);
    }
  }

  /** How one step moves the miss count and the queued ACK. */
  lemma StepCounts(c: Config, s: State, l: Label)
    requires MissInv(c, s) && Enabled(s, l)
    ensures Apply(c, s, l).missedAcks ==
              if TakesAck(s, l) then 0 else s.missedAcks + if Misses(s, l) then 1 else 0
    ensures Apply(c, s, l).ackQueued <==> !TakesAck(s, l) && (s.ackQueued || l == Receiver(PostAck))
  {
    match l
    case Outside(e) => OutsideFrame(c, s, e);
    case Pulse(p) => PulseFrame(c, s, p);
    case Receiver(p) => ReceiverFrame(c, s, p);
    case Select(p) => SelectCounts(s, p);
    case Branch(p) => BranchCounts(c, s, p);
  }

  lemma SelectCounts(s: State, p: SelectStep)
    requires SelectMay(s, p)
    ensures ApplySelect(s, p).missedAcks == if p.TakeAck? then 0 else s.missedAcks
    ensures ApplySelect(s, p).ackQueued <==> !p.TakeAck? && s.ackQueued
  {
  }

  lemma BranchCounts(c: Config, s: State, p: BranchStep)
    requires BranchMay(s, p)
    ensures ApplyBranch(c, s, p).missedAcks ==
              if !p.Recheck? then s.missedAcks else if s.ackQueued then 0 else s.missedAcks + 1
    ensures ApplyBranch(c, s, p).ackQueued <==> !p.Recheck? && s.ackQueued
  {
  }

  lemma {:induction false} CountsSinceLastTake(c: Config, r: Run, k: nat)
    requires IsRun(c, r) && k <= |r.labels|
    ensures r.states[k].missedAcks == MissCount(r, LastTake(r, k), k)
    ensures r.states[k].ackQueued <==> !NoAckPosted(r, LastTake(r, k), k)
  {
    if k > 0 {
      CountsSinceLastTake(c, r, k - 1);
      RunKeepsInv(c, r, k - 1);
      assert StepAt(c, r, k - 1);
      StepCounts(c, r.states[k - 1], r.labels[k - 1]);
      if LastTake(r, k) < k {
        NoAckPostedExtend(r, LastTake(r, k), k);
      }
    }
  }

  lemma NoAckPostedExtend(r: Run, j: nat, k: nat)
    requires j < k <= |r.labels|
    ensures NoAckPosted(r, j, k) <==> NoAckPosted(r, j, k - 1) && r.labels[k - 1] != Receiver(PostAck)
  {
    if NoAckPosted(r, j, k) {
      assert r.labels[k - 1] != Receiver(PostAck);
    }
  }

  /** Steps `j` to `k` are a window of silence that justifies giving up at step `k`: it
      starts where an ACK was consumed (or at the start), no ACK is posted in it, it holds
      exactly the configured number of missed deadlines, the last one at `k`, and it lasts
      at least that many ACK timeouts. */
  ghost predicate SilentWindow(c: Config, r: Run, j: nat, k: nat)
    requires |r.states| == |r.labels| + 1
  {
    && j <= k < |r.labels|
    && (j == 0 || TakesAck(r.states[j - 1], r.labels[j - 1]))
    && NoAckPosted(r, j, k)
    && Misses(r.states[k], r.labels[k])
    && MissCount(r, j, k + 1) == Needed(c)
    && r.states[k].now >= r.states[j].now + Needed(c) * c.ackTimeout
  }

  /** The ACK loop decides to give up exactly at the end of a silent window. */
  lemma GivingUpNeedsSilence(c: Config, r: Run, k: nat)
    requires IsRun(c, r) && k < |r.labels|
    requires r.labels[k] == Branch(Recheck) && r.states[k + 1].ack == AckSignal(AckTimeout)
    ensures SilentWindow(c, r, LastTake(r, k), k)
  {
    FloorSinceLastTake(c, r, k);
    CountsSinceLastTake(c, r, k);
    RunKeepsInv(c, r, k);
    assert StepAt(c, r, k);
    var j := LastTake(r, k);
    assert MissCount(r, j, k + 1) == MissCount(r, j, k) + 1;
    assert r.states[k].missedAcks + 1 == Needed(c);
  }

  predicate TimeoutPending(s: State) {
    AckTimeout in s.reported || s.ack == AckSignal(AckTimeout)
  }

  lemma PulseBeginsNoTimeout(c: Config, s: State, p: PulseStep)
    requires PulseMay(s, p) && TimeoutPending(ApplyPulse(c, s, p))
    ensures TimeoutPending(s)
  {
  }

  lemma BranchBeginsTimeout(c: Config, s: State, p: BranchStep)
    requires BranchMay(s, p) && !TimeoutPending(s) && TimeoutPending(ApplyBranch(c, s, p))
    ensures p.Recheck? && ApplyBranch(c, s, p).ack == AckSignal(AckTimeout)
  {
  }

  lemma SelectBeginsNoTimeout(s: State, p: SelectStep)
    requires SelectMay(s, p) && TimeoutPending(ApplySelect(s, p))
    ensures TimeoutPending(s)
  {
  }

  /** Only a re-check that finds no ACK can begin a timeout report. */
  lemma TimeoutBegins(c: Config, s: State, l: Label)
    requires Enabled(s, l) && !TimeoutPending(s) && TimeoutPending(Apply(c, s, l))
    ensures l == Branch(Recheck) && Apply(c, s, l).ack == AckSignal(AckTimeout)
  {
    match l
    case Outside(e) => assert false;
    case Pulse(p) => PulseBeginsNoTimeout(c, s, p);
    case Receiver(p) => assert false;
    case Select(p) => SelectBeginsNoTimeout(s, p);
    case Branch(p) => BranchBeginsTimeout(c, s, p);
  }

  /** An ACK timeout that is being reported, or was, goes back to a silent window. */
  lemma {:induction false} TimeoutReportNeedsSilence(c: Config, r: Run, n: nat)
    requires IsRun(c, r) && n <= |r.labels| && TimeoutPending(r.states[n])
    ensures exists j: nat, k: nat :: k < n && SilentWindow(c, r, j, k)
  {
    if n > 0 {
      assert StepAt(c, r, n - 1);
      if TimeoutPending(r.states[n - 1]) {
        TimeoutReportNeedsSilence(c, r, n - 1);
        var j: nat, k: nat :| k < n - 1 && SilentWindow(c, r, j, k);
        assert k < n && SilentWindow(c, r, j, k);
      } else {
        TimeoutBegins(c, r.states[n - 1], r.labels[n - 1]);
        GivingUpNeedsSilence(c, r, n - 1);
      }
    }
  }

  // ---- the upper bound: no silence is tolerated longer ----

  /** The ACK loop has nothing to do before its timer fires. */
  predicate AckLoopIdle(s: State) {
    s.ack.AckSelect? && !s.fired && !s.ackQueued && !s.errorQueued
  }

  /** The ACK loop has neither returned nor started to report. */
  predicate AckLoopUndecided(s: State) {
    !s.ack.AckSignal? && !s.ack.AckInHandler? && !s.ack.AckDone?
  }

  /** Time advances only while the ACK loop is idle, and not past its deadline: expired
      timers and queued messages are handled first. */
  predicate Prompt(s: State, l: Label) {
    l.Outside? && l.event.Advance? && !s.cancelled && AckLoopUndecided(s) ==>
      AckLoopIdle(s) && s.deadline.At? && s.now + l.event.elapsed <= s.deadline.moment
  }

  ghost predicate PromptRun(c: Config, r: Run) {
    IsRun(c, r) && forall i: nat :: i < |r.labels| ==> Prompt(r.states[i], r.labels[i])
  }

  predicate ClockExact(c: Config, s: State, start: nat) {
    && (s.ack.AckSelect? && s.deadline.At? ==>
          s.now <= s.deadline.moment == start + (s.missedAcks + 1) * c.ackTimeout)
    && ((s.ack.AckSelect? && s.fired) || s.ack.DeadlineTaken? ==>
          s.now == start + (s.missedAcks + 1) * c.ackTimeout)
    && (s.ack.ResettingTimer? ==> s.now == start + s.missedAcks * c.ackTimeout)
    && (s.ack.AckTaken? ==> s.now == start)
    && (s.ack.ErrorTaken? ==> s.now <= start + (s.missedAcks + 1) * c.ackTimeout && s.missedAcks < Needed(c))
  }

  lemma SelectKeepsClockExact(c: Config, s: State, p: SelectStep, start: nat)
    requires Inv(c, s) && SelectMay(s, p) && !s.cancelled && ClockExact(c, s, start)
    ensures ClockExact(c, ApplySelect(s, p), if TakesAck(s, Select(p)) then s.now else start)
  {
  }

  lemma BranchKeepsClockExact(c: Config, s: State, p: BranchStep, start: nat)
    requires Inv(c, s) && BranchMay(s, p) && !s.cancelled && ClockExact(c, s, start)
    ensures ClockExact(c, ApplyBranch(c, s, p), if TakesAck(s, Branch(p)) then s.now else start)
  {
    NextMultiple(s.missedAcks, c.ackTimeout);
  }

  lemma OutsideKeepsClockExact(c: Config, s: State, e: Event, start: nat)
    requires Inv(c, s) && Happens(s, e) && Prompt(s, Outside(e)) && !s.cancelled && ClockExact(c, s, start)
    ensures ClockExact(c, ApplyOutside(s, e), start) && !TakesAck(s, Outside(e))
  {
  }

  lemma StepKeepsClockExact(c: Config, s: State, l: Label, start: nat)
    requires Inv(c, s) && Enabled(s, l) && Prompt(s, l) && !s.cancelled
    requires ClockExact(c, s, start)
    ensures ClockExact(c, Apply(c, s, l), if TakesAck(s, l) then s.now else start)
  {
    match l
    case Outside(e) => OutsideKeepsClockExact(c, s, e, start);
    case Pulse(p) => PulseFrame(c, s, p);
    case Receiver(p) => ReceiverFrame(c, s, p);
    case Select(p) => SelectKeepsClockExact(c, s, p, start);
    case Branch(p) => BranchKeepsClockExact(c, s, p, start);
  }

  lemma BranchKeepsCancel(c: Config, s: State, p: BranchStep)
    requires BranchMay(s, p) && s.cancelled
    ensures ApplyBranch(c, s, p).cancelled
  {
  }

  lemma PulseKeepsCancel(c: Config, s: State, p: PulseStep)
    requires PulseMay(s, p) && s.cancelled
    ensures ApplyPulse(c, s, p).cancelled
  {
  }

  /** A cancelled context stays cancelled. */
  lemma StepKeepsCancel(c: Config, s: State, l: Label)
    requires Enabled(s, l) && s.cancelled
    ensures Apply(c, s, l).cancelled
  {
    match l
    case Outside(e) =>
    case Pulse(p) => PulseKeepsCancel(c, s, p);
    case Receiver(p) =>
    case Select(p) =>
    case Branch(p) => BranchKeepsCancel(c, s, p);
  }

  lemma NotCancelledBefore(c: Config, s: State, l: Label, t: State)
    requires Enabled(s, l) && t == Apply(c, s, l) && !t.cancelled
    ensures !s.cancelled
  {
    if s.cancelled {
      StepKeepsCancel(c, s, l);
    }
  }

  lemma StepLeadsToExact(c: Config, s: State, l: Label, t: State, start: nat)
    requires Inv(c, s) && Enabled(s, l) && Prompt(s, l) && !s.cancelled && t == Apply(c, s, l)
    requires ClockExact(c, s, start)
    ensures ClockExact(c, t, if TakesAck(s, l) then s.now else start)
  {
    StepKeepsClockExact(c, s, l, start);
  }

  lemma {:induction false} ExactSinceLastTake(c: Config, r: Run, k: nat)
    requires PromptRun(c, r) && k <= |r.labels| && !r.states[k].cancelled
    ensures ClockExact(c, r.states[k], r.states[LastTake(r, k)].now)
  {
    if k > 0 {
      assert StepAt(c, r, k - 1);
      NotCancelledBefore(c, r.states[k - 1], r.labels[k - 1], r.states[k]);
      ExactSinceLastTake(c, r, k - 1);
      RunKeepsInv(c, r, k - 1);
      StepLeadsToExact(c, r.states[k - 1], r.labels[k - 1], r.states[k], r.states[LastTake(r, k - 1)].now);
    }
  }

  /** In a prompt run the loop keeps waiting for at most the configured number of ACK
      timeouts after the last ACK it took, and it gives up at exactly that moment. */
  lemma SilenceIsDetected(c: Config, r: Run, k: nat)
    requires PromptRun(c, r) && k <= |r.labels| && !r.states[k].cancelled
    ensures AckLoopUndecided(r.states[k]) ==>
              r.states[k].now <= r.states[LastTake(r, k)].now + Needed(c) * c.ackTimeout
    ensures k < |r.labels| && r.labels[k] == Branch(Recheck) && r.states[k + 1].ack == AckSignal(AckTimeout) ==>
              r.states[k].now == r.states[LastTake(r, k)].now + Needed(c) * c.ackTimeout
  {
    var s, start := r.states[k], r.states[LastTake(r, k)].now;
    ExactSinceLastTake(c, r, k);
    RunKeepsInv(c, r, k);
    if AckLoopUndecided(s) {
      ProductMonotone(s.missedAcks, Needed(c), c.ackTimeout);
      if s.missedAcks + 1 <= Needed(c) {
        ProductMonotone(s.missedAcks + 1, Needed(c), c.ackTimeout);
      }
    }
    if k < |r.labels| && r.labels[k] == Branch(Recheck) && r.states[k + 1].ack == AckSignal(AckTimeout) {
      assert StepAt(c, r, k);
    }
  }

  lemma ProductMonotone(a: nat, b: nat, t: nat)
    requires a <= b
    ensures a * t <= b * t
  {
  }

  /** The run with one more step. */
  function Extended(c: Config, r: Run, l: Label): Run
    requires |r.states| == |r.labels| + 1 && Enabled(r.states[|r.labels|], l)
  {
    Run(r.labels + [l], r.states + [Apply(c, r.states[|r.labels|], l)])
  }

  lemma ExtendedIsRun(c: Config, r: Run, l: Label)
    requires IsRun(c, r) && Enabled(r.states[|r.labels|], l)
    ensures IsRun(c, Extended(c, r, l))
  {
    var e := Extended(c, r, l);
    forall i: nat | i < |e.labels| ensures StepAt(c, e, i) {
      if i < |r.labels| {
        assert StepAt(c, r, i);
      }
    }
  }

  /** The run through the labels that can happen when their turn comes, the others being passed
      over. */
  function Passing(c: Config, labels: seq<Label>): (r: Run)
    ensures |r.states| == |r.labels| + 1
  {
    if labels == [] then Run([], [Init(c)])
    else
      var r, l := Passing(c, labels[..|labels| - 1]), labels[|labels| - 1];
      if Enabled(r.states[|r.labels|], l) then Extended(c, r, l) else r
  }

  lemma PassingOn(c: Config, labels: seq<Label>, i: nat)
    requires i < |labels|
    ensures var r := Passing(c, labels[..i]);
            Passing(c, labels[..i + 1]) ==
              if Enabled(r.states[|r.labels|], labels[i]) then Extended(c, r, labels[i]) else r
  {
    assert labels[..i + 1][..i] == labels[..i];
  }

  /** `r` is the beginning of every run that takes the steps `labels`. */
  ghost predicate Begins(c: Config, r: Run, labels: seq<Label>, i: nat)
    requires i <= |labels|
  {
    forall t: Run :: IsRun(c, t) && t.labels == labels ==> r.labels == labels[..i] && r.states == t.states[..i + 1]
  }

  lemma BeginsOn(c: Config, r: Run, labels: seq<Label>, i: nat)
    requires i < |labels| && |r.states| == |r.labels| + 1 && Begins(c, r, labels, i)
    ensures Enabled(r.states[|r.labels|], labels[i]) ==> Begins(c, Extended(c, r, labels[i]), labels, i + 1)
    ensures !Enabled(r.states[|r.labels|], labels[i]) ==> Begins(c, r, labels, i + 1)
  {
    forall t: Run | IsRun(c, t) && t.labels == labels
      ensures Enabled(r.states[|r.labels|], labels[i])
      ensures var e := Extended(c, r, labels[i]); e.labels == labels[..i + 1] && e.states == t.states[..i + 2]
    {
      assert StepAt(c, t, i);
      assert r.states[|r.labels|] == t.states[..i + 1][i] == t.states[i];
    }
  }

  lemma ReportsAreJustified(c: Config, r: Run)
    requires IsRun(c, r)
    ensures |r.states[|r.labels|].reported| <= 1
    ensures AckTimeout in r.states[|r.labels|].reported ==>
              exists j: nat, k: nat :: k < |r.labels| && SilentWindow(c, r, j, k)
    ensures StreamFailure in r.states[|r.labels|].reported ==> FailedBefore(r, |r.labels|)
  {
    HandlerRunsAtMostOnce(c, r, |r.labels|);
    if AckTimeout in r.states[|r.labels|].reported {
      TimeoutReportNeedsSilence(c, r, |r.labels|);
    }
    if StreamFailure in r.states[|r.labels|].reported {
      StreamReportNeedsFailure(c, r, |r.labels|);
    }
  }

  method RunTether(c: Config, labels: seq<Label>) returns (r: Run)
    ensures IsRun(c, r) && r == Passing(c, labels)
    ensures forall t: Run :: IsRun(c, t) && t.labels == labels ==> r == t
  {
    var tether := new AgentTether(c);
    r := Run([], [tether.View()]);
    var i := 0;
    while i < |labels|
      invariant 0 <= i <= |labels| && tether.config == c && fresh(tether)
      invariant IsRun(c, r) && r.states[|r.labels|] == tether.View()
      invariant Begins(c, r, labels, i) && r == Passing(c, labels[..i])
    {
      BeginsOn(c, r, labels, i);
      PassingOn(c, labels, i);
      if Enabled(tether.View(), labels[i]) {
        ExtendedIsRun(c, r, labels[i]);
        tether.Perform(labels[i]);
        r := Run(r.labels + [labels[i]], r.states + [tether.View()]);
      }
      i := i + 1;
    }
    assert labels[..i] == labels;
    forall t: Run | IsRun(c, t) && t.labels == labels ensures r == t {
      assert t.states[..i + 1] == t.states;
    }
  }

  /** Let the tether go through the steps of an interleaving, passing over those that cannot
      happen when their turn comes; `r` is what happened. Whatever is given, the handler is
      called at most once, each reason has its cause, and in a prompt run the loop does not
      wait longer than the misses allow. */
  method Replay(c: Config, labels: seq<Label>) returns (r: Run)
    ensures IsRun(c, r) && r == Passing(c, labels)
    ensures forall t: Run :: IsRun(c, t) && t.labels == labels ==> r == t
    ensures |r.states[|r.labels|].reported| <= 1
    ensures AckTimeout in r.states[|r.labels|].reported ==>
              exists j: nat, k: nat :: k < |r.labels| && SilentWindow(c, r, j, k)
    ensures StreamFailure in r.states[|r.labels|].reported ==> FailedBefore(r, |r.labels|)
    ensures PromptRun(c, r) && !r.states[|r.labels|].cancelled && AckLoopUndecided(r.states[|r.labels|]) ==>
              r.states[|r.labels|].now <= r.states[LastTake(r, |r.labels|)].now + Needed(c) * c.ackTimeout
  {
    r := RunTether(c, labels);
    ReportsAreJustified(c, r);
    if PromptRun(c, r) && !r.states[|r.labels|].cancelled {
      SilenceIsDetected(c, r, |r.labels|);
    }
  }
}
