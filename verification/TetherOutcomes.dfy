/** What the tether does about failures: no tick, no ACK and no failure is forgotten, and a
    goroutine that returns leaves a cancelled context behind. */
module TetherOutcomes {
  import opened Tether
  import opened TetherSafety
  import opened TetherShutdown

  // ---- returning ----

  /** A sending or supervising goroutine returns only under a cancelled context. */
  predicate ReturnsCancelled(s: State) {
    s.ack.AckDone? || s.pulse.PulseDone? ==> s.cancelled
  }

  lemma PulseReturnsCancelled(c: Config, s: State, p: PulseStep)
    requires OnceInv(c, s) && ReturnsCancelled(s) && PulseMay(s, p)
    ensures ReturnsCancelled(ApplyPulse(c, s, p))
  {
  }

  lemma SelectReturnsCancelled(s: State, p: SelectStep)
    requires ReturnsCancelled(s) && SelectMay(s, p)
    ensures ReturnsCancelled(ApplySelect(s, p))
  {
  }

  lemma BranchReturnsCancelled(c: Config, s: State, p: BranchStep)
    requires OnceInv(c, s) && ReturnsCancelled(s) && BranchMay(s, p)
    ensures ReturnsCancelled(ApplyBranch(c, s, p))
  {
  }

  lemma StepReturnsCancelled(c: Config, s: State, l: Label)
    requires OnceInv(c, s) && ReturnsCancelled(s) && Enabled(s, l)
    ensures ReturnsCancelled(Apply(c, s, l))
  {
    match l
    case Outside(e) => OutsideFrame(c, s, e);
    case Pulse(p) => PulseReturnsCancelled(c, s, p);
    case Receiver(p) => ReceiverFrame(c, s, p);
    case Select(p) => SelectReturnsCancelled(s, p);
    case Branch(p) => BranchReturnsCancelled(c, s, p);
  }

  lemma ReturnsOneFurther(c: Config, r: Run, k: nat)
    requires IsRun(c, r) && k < |r.labels| && ReturnsCancelled(r.states[k])
    ensures ReturnsCancelled(r.states[k + 1])
  {
    RunKeepsInv(c, r, k);
    assert StepAt(c, r, k);
    StepReturnsCancelled(c, r.states[k], r.labels[k]);
  }

  /** The pulse loop and the ACK loop never just stop: when one of them has returned, the
      tether is closed or disconnected. */
  lemma {:induction false} LoopsEndCancelled(c: Config, r: Run, k: nat)
    requires IsRun(c, r) && k <= |r.labels|
    ensures ReturnsCancelled(r.states[k])
  {
    if k > 0 {
      LoopsEndCancelled(c, r, k - 1);
      ReturnsOneFurther(c, r, k - 1);
    }
  }

  // ---- who cancels ----

  /** The tether has been closed from outside. */
  ghost predicate Closed(r: Run, k: nat)
    requires k <= |r.labels|
  {
    exists i: nat :: i < k && r.labels[i] == Outside(Close)
  }

  lemma PulseCancels(c: Config, s: State, p: PulseStep)
    requires OnceInv(c, s) && PulseMay(s, p)
    ensures ApplyPulse(c, s, p).cancelled <==> s.cancelled || ApplyPulse(c, s, p).once.Finished?
    ensures s.once.Finished? ==> ApplyPulse(c, s, p).once.Finished?
  {
  }

  lemma BranchCancels(c: Config, s: State, p: BranchStep)
    requires OnceInv(c, s) && BranchMay(s, p)
    ensures ApplyBranch(c, s, p).cancelled <==> s.cancelled || ApplyBranch(c, s, p).once.Finished?
    ensures s.once.Finished? ==> ApplyBranch(c, s, p).once.Finished?
  {
  }

  lemma StepCancels(c: Config, s: State, l: Label)
    requires OnceInv(c, s) && Enabled(s, l)
    ensures Apply(c, s, l).cancelled <==> s.cancelled || l == Outside(Close) || Apply(c, s, l).once.Finished?
    ensures s.once.Finished? ==> Apply(c, s, l).once.Finished?
  {
    match l
    case Outside(_) =>
    case Pulse(p) => PulseCancels(c, s, p);
    case Receiver(p) => ReceiverFrame(c, s, p);
    case Select(_) =>
    case Branch(p) => BranchCancels(c, s, p);
  }

  lemma CancelsOneFurther(c: Config, r: Run, k: nat)
    requires IsRun(c, r) && k < |r.labels|
    ensures r.states[k + 1].cancelled <==>
              r.states[k].cancelled || r.labels[k] == Outside(Close) || r.states[k + 1].once.Finished?
    ensures r.states[k].once.Finished? ==> r.states[k + 1].once.Finished?
  {
    RunKeepsInv(c, r, k);
    assert StepAt(c, r, k);
    StepCancels(c, r.states[k], r.labels[k]);
  }

  /** The context is cancelled exactly if the tether was closed from outside or disconnected
      itself; and after a disconnect the handler, if there is one, has been called once. */
  lemma {:induction false} CancelledExactly(c: Config, r: Run, k: nat)
    requires IsRun(c, r) && k <= |r.labels|
    ensures r.states[k].cancelled <==> Closed(r, k) || r.states[k].once.Finished?
    ensures r.states[k].once.Finished? ==> |r.states[k].reported| == if c.hasHandler then 1 else 0
  {
    RunKeepsInv(c, r, k);
    if k > 0 {
      CancelledExactly(c, r, k - 1);
      CancelsOneFurther(c, r, k - 1);
      assert Closed(r, k) <==> Closed(r, k - 1) || r.labels[k - 1] == Outside(Close);
    }
  }

  // ---- what a receive error means ----

  /** The receiver ends only behind a receive that failed. */
  lemma ReceiverEnds(c: Config, s: State, l: Label)
    requires Enabled(s, l)
    ensures Apply(c, s, l).receiver.ReceiverDone? || Apply(c, s, l).receiver.PostingError? ==>
              s.receiver.ReceiverDone? || s.receiver.PostingError? || l == Receiver(RecvFails)
  {
    match l
    case Outside(e) => OutsideFrame(c, s, e);
    case Pulse(p) => PulseFrame(c, s, p);
    case Receiver(p) => ReceiverEndsBy(s, p);
    case Select(_) =>
    case Branch(p) => BranchLeavesStream(c, s, p);
  }

  lemma ReceiverEndsBy(s: State, p: ReceiverStep)
    requires ReceiverMay(s, p)
    ensures ApplyReceiver(s, p).receiver.ReceiverDone? || ApplyReceiver(s, p).receiver.PostingError? ==>
              s.receiver.ReceiverDone? || s.receiver.PostingError? || p.RecvFails?
  {
  }

  /** The receiver reads on until a receive fails. */
  lemma {:induction false} ReceiverEndsForFailure(c: Config, r: Run, k: nat)
    requires IsRun(c, r) && k <= |r.labels|
    requires r.states[k].receiver.ReceiverDone? || r.states[k].receiver.PostingError?
    ensures exists i: nat :: i < k && r.labels[i] == Receiver(RecvFails)
  {
    if k > 0 {
      assert StepAt(c, r, k - 1);
      ReceiverEnds(c, r.states[k - 1], r.labels[k - 1]);
      if r.labels[k - 1] != Receiver(RecvFails) {
        ReceiverEndsForFailure(c, r, k - 1);
      }
    }
  }

  lemma BranchSignals(c: Config, s: State, p: BranchStep)
    requires BranchMay(s, p) && ApplyBranch(c, s, p).ack == AckSignal(StreamFailure)
    ensures p.CheckContext? && !s.cancelled
  {
  }

  lemma StepSignals(c: Config, s: State, l: Label)
    requires Enabled(s, l) && s.ack != AckSignal(StreamFailure) && Apply(c, s, l).ack == AckSignal(StreamFailure)
    ensures l == Branch(CheckContext) && !s.cancelled
  {
    match l
    case Outside(e) => OutsideFrame(c, s, e);
    case Pulse(p) => PulseFrame(c, s, p);
    case Receiver(p) => ReceiverFrame(c, s, p);
    case Select(_) =>
    case Branch(p) => BranchSignals(c, s, p);
  }

  /** The ACK loop sets out to report a receive error only if it found the context open: an error
      behind a cancellation is not reported. */
  lemma {:induction false} ReceiveReportNeedsOpenContext(c: Config, r: Run, k: nat)
    requires IsRun(c, r) && k <= |r.labels| && r.states[k].ack == AckSignal(StreamFailure)
    ensures exists i: nat :: i < k && r.labels[i] == Branch(CheckContext) && !r.states[i].cancelled
  {
    if k > 0 {
      assert StepAt(c, r, k - 1);
      if r.states[k - 1].ack == AckSignal(StreamFailure) {
        ReceiveReportNeedsOpenContext(c, r, k - 1);
      } else {
        StepSignals(c, r.states[k - 1], r.labels[k - 1]);
      }
    }
  }

  // ---- failures are followed up ----

  /** The pulse loop is about to disconnect. */
  predicate PulseFailing(s: State) {
    s.cancelled || s.pulse.PulseSignal? || s.pulse.PulseInHandler?
  }

  /** A receive error is on its way, or the ACK loop is disconnecting. */
  predicate ReceiveFailing(s: State) {
    || s.cancelled || s.receiver.PostingError? || s.errorQueued || s.ack.ErrorTaken?
    || s.ack == AckSignal(StreamFailure) || s.ack.AckInHandler?
  }

  lemma PulseFollowsUp(c: Config, s: State, p: PulseStep)
    requires OnceInv(c, s) && PulseMay(s, p)
    ensures PulseFailing(s) || p.SendFails? ==> PulseFailing(ApplyPulse(c, s, p))
    ensures ReceiveFailing(s) ==> ReceiveFailing(ApplyPulse(c, s, p))
  {
    PulseFrame(c, s, p);
  }

  lemma ReceiverFollowsUp(s: State, p: ReceiverStep)
    requires ReceiverMay(s, p)
    ensures PulseFailing(s) ==> PulseFailing(ApplyReceiver(s, p))
    ensures ReceiveFailing(s) || p.RecvFails? ==> ReceiveFailing(ApplyReceiver(s, p))
  {
  }

  lemma SelectFollowsUp(s: State, p: SelectStep)
    requires SelectMay(s, p)
    ensures PulseFailing(s) ==> PulseFailing(ApplySelect(s, p))
    ensures ReceiveFailing(s) ==> ReceiveFailing(ApplySelect(s, p))
  {
  }

  lemma BranchKeepsPulseFailing(c: Config, s: State, p: BranchStep)
    requires BranchMay(s, p) && PulseFailing(s)
    ensures PulseFailing(ApplyBranch(c, s, p))
  {
  }

  lemma BranchKeepsReceiveFailing(c: Config, s: State, p: BranchStep)
    requires OnceInv(c, s) && BranchMay(s, p) && ReceiveFailing(s)
    ensures ReceiveFailing(ApplyBranch(c, s, p))
  {
  }

  lemma StepFollowsUp(c: Config, s: State, l: Label)
    requires OnceInv(c, s) && Enabled(s, l)
    ensures PulseFailing(s) || l == Pulse(SendFails) ==> PulseFailing(Apply(c, s, l))
    ensures ReceiveFailing(s) || l == Receiver(RecvFails) ==> ReceiveFailing(Apply(c, s, l))
  {
    match l
    case Outside(e) => OutsideFrame(c, s, e);
    case Pulse(p) => PulseFollowsUp(c, s, p);
    case Receiver(p) => ReceiverFollowsUp(s, p);
    case Select(p) => SelectFollowsUp(s, p);
    case Branch(p) =>
      if PulseFailing(s) { BranchKeepsPulseFailing(c, s, p); }
      if ReceiveFailing(s) { BranchKeepsReceiveFailing(c, s, p); }
  }

  /** Whoever saw a failure is disconnecting until the context is cancelled. */
  lemma {:induction false} FailureIsFollowedUp(c: Config, r: Run, i: nat, k: nat)
    requires IsRun(c, r) && i < k <= |r.labels|
    ensures r.labels[i] == Pulse(SendFails) ==> PulseFailing(r.states[k])
    ensures r.labels[i] == Receiver(RecvFails) ==> ReceiveFailing(r.states[k])
  {
    assert StepAt(c, r, k - 1);
    RunKeepsInv(c, r, k - 1);
    if i < k - 1 {
      FailureIsFollowedUp(c, r, i, k - 1);
    }
    StepFollowsUp(c, r.states[k - 1], r.labels[k - 1]);
  }

  /** What waits for the clock, for the stream or for the caller. */
  predicate WaitsForOthers(l: Label) {
    || l.Outside? || l == Pulse(PulseTick) || l == Pulse(SendSucceeds) || l == Pulse(SendFails)
    || l == Receiver(RecvAck) || l == Receiver(RecvFails)
  }

  /** Until the context is cancelled, somebody can move the disconnect on. */
  lemma DisconnectMovesOn(c: Config, s: State)
    requires Inv(c, s) && ReturnsCancelled(s) && (PulseFailing(s) || ReceiveFailing(s)) && !s.cancelled
    ensures exists l: Label :: Enabled(s, l) && !WaitsForOthers(l)
  {
    var l :=
      if s.pulse.PulseInHandler? then Pulse(PulseReturns)
      else if s.ack.AckInHandler? then Branch(AckReturns)
      else if s.pulse.PulseSignal? then Pulse(PulseReports)
      else if s.receiver.PostingError? then Receiver(PostError)
      else if s.ack.AckSelect? then Select(TakeError)
      else if s.ack.AckTaken? then Branch(StopTimer)
      else if s.ack.DeadlineTaken? then Branch(Recheck)
      else if s.ack.ErrorTaken? then Branch(CheckContext)
      else if s.ack.ResettingTimer? then Branch(ResetTimer)
      else Branch(AckReports);
    assert Enabled(s, l) && !WaitsForOthers(l);
  }

  /** A failed send or receive ends in a cancelled context: where the tether can only wait for
      others, it has happened. */
  lemma FailureEndsInDisconnect(c: Config, r: Run, k: nat)
    requires IsRun(c, r) && k <= |r.labels| && FailedBefore(r, k)
    requires forall l: Label :: Enabled(r.states[k], l) ==> WaitsForOthers(l)
    ensures r.states[k].cancelled
  {
    var i: nat :| i < k && (r.labels[i] == Pulse(SendFails) || r.labels[i] == Receiver(RecvFails));
    RunKeepsInv(c, r, k);
    LoopsEndCancelled(c, r, k);
    FailureIsFollowedUp(c, r, i, k);
    if !r.states[k].cancelled {
      DisconnectMovesOn(c, r.states[k]);
    }
  }

  // ---- nothing is skipped ----

  /** How often `l` is among the first `k` steps. */
  function Times(r: Run, k: nat, l: Label): nat
    requires k <= |r.labels|
  {
    if k == 0 then 0 else Times(r, k - 1, l) + if r.labels[k - 1] == l then 1 else 0
  }

  function One(b: bool): nat {
    if b then 1 else 0
  }

  lemma PulseCounts(c: Config, s: State, p: PulseStep)
    requires PulseMay(s, p)
    ensures One(ApplyPulse(c, s, p).pulse.PulseSending?) + One(p.SendSucceeds?) + One(p.SendFails?)
              == One(s.pulse.PulseSending?) + One(p.PulseTick?)
  {
  }

  lemma ReceiverCounts(s: State, p: ReceiverStep)
    requires ReceiverMay(s, p)
    ensures One(ApplyReceiver(s, p).receiver.PostingAck?) + One(p.PostAck?)
              == One(s.receiver.PostingAck?) + One(p.RecvAck?)
  {
  }

  lemma StepCountsPulses(c: Config, s: State, l: Label)
    requires Enabled(s, l)
    ensures One(Apply(c, s, l).pulse.PulseSending?) + One(l == Pulse(SendSucceeds)) + One(l == Pulse(SendFails))
              == One(s.pulse.PulseSending?) + One(l == Pulse(PulseTick))
  {
    match l
    case Outside(e) => OutsideFrame(c, s, e);
    case Pulse(p) => PulseCounts(c, s, p);
    case Receiver(p) => ReceiverFrame(c, s, p);
    case Select(_) =>
    case Branch(p) => BranchLeavesStream(c, s, p);
  }

  lemma StepCountsAcks(c: Config, s: State, l: Label)
    requires Enabled(s, l)
    ensures One(Apply(c, s, l).receiver.PostingAck?) + One(l == Receiver(PostAck))
              == One(s.receiver.PostingAck?) + One(l == Receiver(RecvAck))
  {
    match l
    case Outside(e) => OutsideFrame(c, s, e);
    case Pulse(p) => PulseFrame(c, s, p);
    case Receiver(p) => ReceiverCounts(s, p);
    case Select(_) =>
    case Branch(p) => BranchLeavesStream(c, s, p);
  }

  /** Every tick taken is answered by one call of Send, and every ACK received is posted once,
      but for the one under way. */
  lemma {:induction false} NothingIsSkipped(c: Config, r: Run, k: nat)
    requires IsRun(c, r) && k <= |r.labels|
    ensures Times(r, k, Pulse(PulseTick)) ==
              Times(r, k, Pulse(SendSucceeds)) + Times(r, k, Pulse(SendFails)) + One(r.states[k].pulse.PulseSending?)
    ensures Times(r, k, Receiver(RecvAck)) ==
              Times(r, k, Receiver(PostAck)) + One(r.states[k].receiver.PostingAck?)
  {
    if k > 0 {
      NothingIsSkipped(c, r, k - 1);
      assert StepAt(c, r, k - 1);
      StepCountsPulses(c, r.states[k - 1], r.labels[k - 1]);
      StepCountsAcks(c, r.states[k - 1], r.labels[k - 1]);
    }
  }
}
