/** Shutdown of the tether: once the context is cancelled and the stream fails, every
    goroutine returns after a bounded number of its own steps, whatever the timer does. */
module TetherShutdown {
  import opened Tether
  import opened TetherSafety

  predicate AllDone(s: State) {
    s.pulse.PulseDone? && s.receiver.ReceiverDone? && s.ack.AckDone?
  }

  /** Steps that are not work: time passing, and closing again. */
  predicate Idle(l: Label) {
    l.Outside? && !l.event.TimerFires?
  }

  /** What can still happen on a stream whose context is cancelled. */
  predicate StreamDown(l: Label) {
    l != Pulse(SendSucceeds) && l != Receiver(RecvAck)
  }

  function PulseRank(p: PulsePc): nat {
    match p
    case PulseSelect => 4
    case PulseSending => 3
    case PulseSignal => 2
    case PulseInHandler => 1
    case PulseDone => 0
  }

  function ReceiverRank(p: ReceiverPc): nat {
    match p
    case PostingAck => 3
    case Receiving => 2
    case PostingError => 1
    case ReceiverDone => 0
  }

  function AckRank(p: AckPc): nat {
    match p
    case AckTaken => 7
    case ResettingTimer => 6
    case AckSelect => 4
    case DeadlineTaken => 3
    case ErrorTaken => 3
    case AckSignal(_) => 2
    case AckInHandler => 1
    case AckDone => 0
  }

  /** The part of the budget that belongs to the ACK loop and its timer. */
  function LoopRank(s: State): nat {
    AckRank(s.ack) + if s.deadline.At? then 1 else 0
  }

  /** An ACK that can still be consumed pays for a whole new series of misses. */
  function AckWorth(c: Config): nat {
    4 * Needed(c) + 8
  }

  function MissesLeft(c: Config, s: State): nat {
    if s.missedAcks < Needed(c) then Needed(c) - s.missedAcks else 0
  }

  /** A bound on the number of non-idle steps still to come. */
  function Budget(c: Config, s: State): nat {
    (if s.receiver.PostingAck? then AckWorth(c) else 0)
    + (if s.ackQueued then AckWorth(c) else 0)
    + 4 * MissesLeft(c, s)
    + LoopRank(s)
    + ReceiverRank(s.receiver)
    + PulseRank(s.pulse)
  }

  lemma PulseMovesOn(c: Config, s: State, p: PulseStep)
    requires PulseMay(s, p) && !p.SendSucceeds?
    ensures PulseRank(ApplyPulse(c, s, p).pulse) < PulseRank(s.pulse)
  {
  }

  lemma PulseSpendsBudget(c: Config, s: State, p: PulseStep)
    requires PulseMay(s, p) && !p.SendSucceeds?
    ensures Budget(c, ApplyPulse(c, s, p)) < Budget(c, s)
  {
    PulseMovesOn(c, s, p);
    PulseFrame(c, s, p);
  }

  lemma ReceiverSpendsBudget(c: Config, s: State, p: ReceiverStep)
    requires ReceiverMay(s, p) && !p.RecvAck?
    ensures Budget(c, ApplyReceiver(s, p)) < Budget(c, s)
  {
  }

  lemma SelectSpendsBudget(c: Config, s: State, p: SelectStep)
    requires TimerInv(s) && MissInv(c, s) && SelectMay(s, p)
    ensures Budget(c, ApplySelect(s, p)) < Budget(c, s)
  {
  }

  lemma BranchMovesOn(c: Config, s: State, p: BranchStep)
    requires TimerInv(s) && BranchMay(s, p) && !p.Recheck?
    ensures LoopRank(ApplyBranch(c, s, p)) < LoopRank(s)
  {
  }

  lemma BranchLeavesStream(c: Config, s: State, p: BranchStep)
    requires BranchMay(s, p)
    ensures var t := ApplyBranch(c, s, p); t.pulse == s.pulse && t.receiver == s.receiver
  {
  }

  lemma RecheckSpendsBudget(c: Config, s: State)
    requires TimerInv(s) && MissInv(c, s) && BranchMay(s, Recheck)
    ensures Budget(c, ApplyRecheck(c, s)) < Budget(c, s)
  {
  }

  lemma BranchSpendsBudget(c: Config, s: State, p: BranchStep)
    requires TimerInv(s) && MissInv(c, s) && BranchMay(s, p)
    ensures Budget(c, ApplyBranch(c, s, p)) < Budget(c, s)
  {
    if p.Recheck? {
      RecheckSpendsBudget(c, s);
    } else {
      BranchMovesOn(c, s, p);
      BranchLeavesStream(c, s, p);
      BranchCounts(c, s, p);
    }
  }

  lemma OutsideSpendsBudget(c: Config, s: State, e: Event)
    requires Happens(s, e)
    ensures Budget(c, ApplyOutside(s, e)) + (if e.TimerFires? then 1 else 0) <= Budget(c, s)
  {
  }

  /** Every non-idle step spends budget. A consumed ACK forgives all misses, which is
      why it is worth so much while it is on its way. */
  lemma StepSpendsBudget(c: Config, s: State, l: Label)
    requires TimerInv(s) && MissInv(c, s) && Enabled(s, l) && StreamDown(l)
    ensures Budget(c, Apply(c, s, l)) + (if Idle(l) then 0 else 1) <= Budget(c, s)
  {
    match l
    case Outside(e) => OutsideSpendsBudget(c, s, e);
    case Pulse(p) => PulseSpendsBudget(c, s, p);
    case Receiver(p) => ReceiverSpendsBudget(c, s, p);
    case Select(p) => SelectSpendsBudget(c, s, p);
    case Branch(p) => BranchSpendsBudget(c, s, p);
  }

  /** No deadlock: until all goroutines have returned, one of them can move, without
      waiting for the timer, for a tick or for the other side. */
  lemma ShutdownProgress(c: Config, s: State)
    requires Inv(c, s) && s.cancelled && !AllDone(s)
    ensures exists l: Label :: Enabled(s, l) && StreamDown(l) && !l.Outside? && l != Pulse(PulseTick)
  {
    var l :=
      if s.pulse.PulseInHandler? then Pulse(PulseReturns)
      else if s.ack.AckInHandler? then Branch(AckReturns)
      else if s.pulse.PulseSelect? then Pulse(PulseSeesCancel)
      else if s.pulse.PulseSending? then Pulse(SendFails)
      else if s.pulse.PulseSignal? then Pulse(PulseReports)
      else if s.receiver.Receiving? then Receiver(RecvFails)
      else if s.receiver.PostingAck? then Receiver(PostAck)
      else if s.receiver.PostingError? then Receiver(PostError)
      else if s.ack.AckSelect? then Select(AckSeesCancel)
      else if s.ack.AckTaken? then Branch(StopTimer)
      else if s.ack.DeadlineTaken? then Branch(Recheck)
      else if s.ack.ErrorTaken? then Branch(CheckContext)
      else if s.ack.ResettingTimer? then Branch(ResetTimer)
      else Branch(AckReports);
    assert Enabled(s, l) && StreamDown(l) && !l.Outside? && l != Pulse(PulseTick);
  }

  /** The number of non-idle steps among the first `k` of a run. */
  function WorkDone(r: Run, k: nat): nat
    requires k <= |r.labels|
  {
    if k == 0 then 0 else WorkDone(r, k - 1) + if Idle(r.labels[k - 1]) then 0 else 1
  }

  lemma ShutdownStep(c: Config, s: State, l: Label, t: State)
    requires Inv(c, s) && s.cancelled && Enabled(s, l) && StreamDown(l) && t == Apply(c, s, l)
    ensures Inv(c, t) && t.cancelled
    ensures Budget(c, t) + (if Idle(l) then 0 else 1) <= Budget(c, s)
  {
    StepKeepsInv(c, s, l);
    StepSpendsBudget(c, s, l);
    StepKeepsCancel(c, s, l);
  }

  lemma {:induction false} ShutdownSpends(c: Config, start: State, r: Run, k: nat)
    requires Inv(c, start) && start.cancelled && IsRunFrom(c, start, r) && k <= |r.labels|
    requires forall i: nat :: i < |r.labels| ==> StreamDown(r.labels[i])
    ensures Inv(c, r.states[k]) && r.states[k].cancelled
    ensures WorkDone(r, k) + Budget(c, r.states[k]) <= Budget(c, start)
  {
    if k > 0 {
      ShutdownSpends(c, start, r, k - 1);
      assert StepAt(c, r, k - 1);
      ShutdownStep(c, r.states[k - 1], r.labels[k - 1], r.states[k]);
    }
  }

  /** From every reachable cancelled state on, a run on the failed stream does at most
      `Budget` non-idle steps, and where no goroutine can move any more all have returned. */
  lemma ShutdownTerminates(c: Config, before: Run, start: State, r: Run)
    requires IsRun(c, before) && before.states[|before.labels|] == start && start.cancelled
    requires IsRunFrom(c, start, r)
    requires forall i: nat :: i < |r.labels| ==> StreamDown(r.labels[i])
    ensures WorkDone(r, |r.labels|) <= Budget(c, start)
    ensures (forall l: Label :: Enabled(r.states[|r.labels|], l) && StreamDown(l) ==> Idle(l))
              ==> AllDone(r.states[|r.labels|])
  {
    RunKeepsInv(c, before, |before.labels|);
    ShutdownSpends(c, start, r, |r.labels|);
    if !AllDone(r.states[|r.labels|]) {
      ShutdownProgress(c, r.states[|r.labels|]);
    }
  }
}
