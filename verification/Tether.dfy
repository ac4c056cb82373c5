/** The agent tether: three goroutines (pulse loop, ACK loop, receiver) that share
    two capacity-1 channels, one resettable timer, a cancellable context and a
    `sync.Once`.

    `Apply` is one atomic step of one goroutine, of the clock or of the caller; the
    environment picks the step. `AgentTether` below is the same state held in fields,
    with one method for every piece of goroutine code between two blocking points. */
module Tether {
  /** A resettable timer, armed or not. */
  datatype Alarm = Off | At(moment: nat)

  /** What the transport failure handler is told. */
  datatype Reason = StreamFailure | AckTimeout

  /** `disconnectOnce`: the handler runs inside the `Once`, so a second caller blocks. */
  datatype Once = Unused | Running | Finished

  datatype PulsePc =
    | PulseSelect                 // waiting for a tick or for cancellation
    | PulseSending                // took a tick, calling Send
    | PulseSignal                 // Send failed, about to call signalDisconnect
    | PulseInHandler              // inside disconnectOnce.Do
    | PulseDone

  datatype ReceiverPc =
    | Receiving                   // blocked in Recv
    | PostingAck                  // Recv returned an ACK
    | PostingError                // Recv failed
    | ReceiverDone

  datatype AckPc =
    | AckSelect                   // waiting in the four-way select
    | AckTaken                    // took an ACK, about to stop the timer
    | DeadlineTaken               // took the timer's token, about to re-check for an ACK
    | ErrorTaken                  // took the receive error, about to check the context
    | ResettingTimer              // about to re-arm the timer
    | AckSignal(reason: Reason)   // about to call signalDisconnect
    | AckInHandler                // inside disconnectOnce.Do
    | AckDone

  datatype Config = Config(ackTimeout: nat, maxMissedAcks: int, hasHandler: bool)

  datatype State = State(
    now: nat,
    cancelled: bool,
    once: Once,
    reported: seq<Reason>,        // calls of the transport failure handler
    sendClosed: bool,
    pulse: PulsePc,
    receiver: ReceiverPc,
    ack: AckPc,
    ackQueued: bool,              // ackCh holds its one element
    errorQueued: bool,            // recvErrCh holds its one element
    missedAcks: nat,
    deadline: Alarm,              // when the timer fires
    fired: bool                   // the timer's channel holds its token
  )

  /** What the goroutines do not do themselves. */
  datatype Event = Advance(elapsed: nat) | TimerFires | Close

  datatype PulseStep =
    | PulseTick
    | SendSucceeds
    | SendFails
    | PulseReports
    | PulseReturns
    | PulseSeesCancel

  datatype ReceiverStep =
    | RecvAck
    | PostAck
    | RecvFails
    | PostError
    | ReceiverSeesCancel

  /** A branch of the ACK loop's `select`. */
  datatype SelectStep =
    | TakeAck
    | TakeDeadline
    | TakeError
    | AckSeesCancel

  /** What follows in that branch. */
  datatype BranchStep =
    | StopTimer
    | ResetTimer
    | Recheck
    | CheckContext
    | AckReports
    | AckReturns

  /** Whose step it is. */
  datatype Label =
    | Outside(event: Event)
    | Pulse(pulseStep: PulseStep)
    | Receiver(receiverStep: ReceiverStep)
    | Select(selectStep: SelectStep)
    | Branch(branchStep: BranchStep)

  function Init(c: Config): State {
    State(0, false, Unused, [], false, PulseSelect, Receiving, AckSelect,
          false, false, 0, At(c.ackTimeout), false)
  }

  /** The misses it takes to give up: a limit below one behaves like one. */
  function Needed(c: Config): (n: nat)
    ensures n >= 1 && n >= c.maxMissedAcks
  {
    if c.maxMissedAcks < 1 then 1 else c.maxMissedAcks
  }

  predicate Happens(s: State, e: Event) {
    e.TimerFires? ==> s.deadline.At? && s.deadline.moment <= s.now
  }

  predicate PulseMay(s: State, p: PulseStep) {
    match p
    case PulseTick => s.pulse.PulseSelect?
    case SendSucceeds => s.pulse.PulseSending?
    case SendFails => s.pulse.PulseSending?
    case PulseReports => s.pulse.PulseSignal? && !s.once.Running?
    case PulseReturns => s.pulse.PulseInHandler?
    case PulseSeesCancel => s.pulse.PulseSelect? && s.cancelled
  }

  predicate ReceiverMay(s: State, p: ReceiverStep) {
    match p
    case RecvAck => s.receiver.Receiving?
    case PostAck => s.receiver.PostingAck?
    case RecvFails => s.receiver.Receiving?
    case PostError => s.receiver.PostingError? && !s.errorQueued
    case ReceiverSeesCancel => s.receiver.PostingError? && s.cancelled
  }

  predicate SelectMay(s: State, p: SelectStep) {
    && s.ack.AckSelect?
    && match p
       case TakeAck => s.ackQueued
       case TakeDeadline => s.fired
       case TakeError => s.errorQueued
       case AckSeesCancel => s.cancelled
  }

  predicate BranchMay(s: State, p: BranchStep) {
    match p
    case StopTimer => s.ack.AckTaken?
    case ResetTimer => s.ack.ResettingTimer?
    case Recheck => s.ack.DeadlineTaken?
    case CheckContext => s.ack.ErrorTaken?
    case AckReports => s.ack.AckSignal? && !s.once.Running?
    case AckReturns => s.ack.AckInHandler?
  }

  predicate Enabled(s: State, l: Label) {
    match l
    case Outside(e) => Happens(s, e)
    case Pulse(p) => PulseMay(s, p)
    case Receiver(p) => ReceiverMay(s, p)
    case Select(p) => SelectMay(s, p)
    case Branch(p) => BranchMay(s, p)
  }

  /** `disconnectOnce.Do` runs the handler only for the first caller. */
  function Reported(c: Config, s: State, reason: Reason): seq<Reason> {
    if s.once.Unused? && c.hasHandler then s.reported + [reason] else s.reported
  }

  /** The ACK loop returns; its deferred call stops the timer. */
  function FinishAckLoop(s: State): State {
    s.(ack := AckDone, deadline := Off)
  }

  function ApplyOutside(s: State, e: Event): State
    requires Happens(s, e)
  {
    match e
    case Advance(elapsed) => s.(now := s.now + elapsed)
    case TimerFires => s.(deadline := Off, fired := true)
    case Close => s.(cancelled := true)
  }

  function ApplyPulse(c: Config, s: State, p: PulseStep): State
    requires PulseMay(s, p)
  {
    match p
    case PulseTick => s.(pulse := PulseSending)
    case SendSucceeds => s.(pulse := PulseSelect)
    case SendFails => s.(pulse := PulseSignal)
    case PulseReports =>
      if s.once.Unused?
      then s.(once := Running, reported := Reported(c, s, StreamFailure), pulse := PulseInHandler)
      else s.(pulse := PulseDone)
    case PulseReturns => s.(cancelled := true, once := Finished, pulse := PulseDone)
    case PulseSeesCancel => s.(sendClosed := true, pulse := PulseDone)
  }

  function ApplyReceiver(s: State, p: ReceiverStep): State
    requires ReceiverMay(s, p)
  {
    match p
    case RecvAck => s.(receiver := PostingAck)
    case PostAck => s.(receiver := Receiving, ackQueued := true)
    case RecvFails => s.(receiver := PostingError)
    case PostError => s.(receiver := ReceiverDone, errorQueued := true)
    case ReceiverSeesCancel => s.(receiver := ReceiverDone)
  }

  function ApplySelect(s: State, p: SelectStep): State
    requires SelectMay(s, p)
  {
    match p
    case TakeAck => s.(ack := AckTaken, ackQueued := false, missedAcks := 0)
    case TakeDeadline => s.(ack := DeadlineTaken, fired := false)
    case TakeError => s.(ack := ErrorTaken, errorQueued := false)
    case AckSeesCancel => FinishAckLoop(s)
  }

  /** The deadline branch behind its re-check for a queued ACK. */
  function ApplyRecheck(c: Config, s: State): State {
    if s.ackQueued then s.(ack := ResettingTimer, ackQueued := false, missedAcks := 0)
    else if s.missedAcks + 1 >= c.maxMissedAcks
    then s.(ack := AckSignal(AckTimeout), missedAcks := s.missedAcks + 1)
    else s.(ack := ResettingTimer, missedAcks := s.missedAcks + 1)
  }

  function ApplyBranch(c: Config, s: State, p: BranchStep): State
    requires BranchMay(s, p)
  {
    match p
    case StopTimer =>
      if s.deadline.At?
      then s.(ack := ResettingTimer, deadline := Off)
      else s.(ack := ResettingTimer, fired := false)
    case ResetTimer => s.(ack := AckSelect, deadline := At(s.now + c.ackTimeout))
    case Recheck => ApplyRecheck(c, s)
    case CheckContext =>
      if s.cancelled then FinishAckLoop(s) else s.(ack := AckSignal(StreamFailure))
    case AckReports =>
      if s.once.Unused?
      then s.(once := Running, reported := Reported(c, s, s.ack.reason), ack := AckInHandler)
      else FinishAckLoop(s)
    case AckReturns => FinishAckLoop(s.(cancelled := true, once := Finished))
  }

  /** The step of whoever moves. */
  function Apply(c: Config, s: State, l: Label): State
    requires Enabled(s, l)
  {
    match l
    case Outside(e) => ApplyOutside(s, e)
    case Pulse(p) => ApplyPulse(c, s, p)
    case Receiver(p) => ApplyReceiver(s, p)
    case Select(p) => ApplySelect(s, p)
    case Branch(p) => ApplyBranch(c, s, p)
  }

  /** A run: `states[i + 1]` follows from `states[i]` by the step `labels[i]`. */
  datatype Run = Run(labels: seq<Label>, states: seq<State>)

  predicate StepAt(c: Config, r: Run, i: nat)
    requires i < |r.labels| && |r.states| == |r.labels| + 1
  {
    Enabled(r.states[i], r.labels[i]) && r.states[i + 1] == Apply(c, r.states[i], r.labels[i])
  }

  ghost predicate IsRunFrom(c: Config, start: State, r: Run) {
    && |r.states| == |r.labels| + 1
    && r.states[0] == start
    && forall i: nat :: i < |r.labels| ==> StepAt(c, r, i)
  }

  ghost predicate IsRun(c: Config, r: Run) {
    IsRunFrom(c, Init(c), r)
  }

  /** The tether as the program holds it. Each method is the code a goroutine executes
      between two points at which it can be interleaved. */
  class AgentTether {
    const config: Config
    var now: nat
    var cancelled: bool
    var once: Once
    var reported: seq<Reason>
    var sendClosed: bool
    var pulse: PulsePc
    var receiver: ReceiverPc
    var ack: AckPc
    var ackQueued: bool
    var errorQueued: bool
    var missedAcks: nat
    var deadline: Alarm
    var fired: bool

    function View(): State
      reads this
    {
      State(now, cancelled, once, reported, sendClosed, pulse, receiver, ack,
            ackQueued, errorQueued, missedAcks, deadline, fired)
    }

    /** `Start` after the stream is open and the initial pulse was sent. */
    constructor (c: Config)
      ensures config == c && View() == Init(c)
    {
      config := c;
      now, cancelled, once, reported, sendClosed := 0, false, Unused, [], false;
      pulse, receiver, ack := PulseSelect, Receiving, AckSelect;
      ackQueued, errorQueued, missedAcks := false, false, 0;
      deadline, fired := At(c.ackTimeout), false;
    }

    /** The first half of `signalDisconnect`: enter the `Once` and call the handler.
        `first` says whether this caller is the one that runs it. */
    method EnterDisconnect(reason: Reason) returns (first: bool)
      requires !once.Running?
      modifies this`once, this`reported
      ensures first == old(once.Unused?)
      ensures once == if first then Running else old(once)
      ensures reported == Reported(config, old(View()), reason)
    {
      first := once.Unused?;
      if first {
        once := Running;
        if config.hasHandler {
          reported := reported + [reason];
        }
      }
    }

    /** The second half of `signalDisconnect`: cancel and leave the `Once`. */
    method LeaveDisconnect()
      modifies this`cancelled, this`once
      ensures cancelled && once == Finished
    {
      cancelled := true;
      once := Finished;
    }

    /** The pulse has been sent, or not. */
    method FinishPulse(sendFailed: bool)
      requires pulse.PulseSending?
      modifies this`pulse
      ensures View() == ApplyPulse(config, old(View()), if sendFailed then SendFails else SendSucceeds)
    {
      pulse := if sendFailed then PulseSignal else PulseSelect;
    }

    method ReportPulseFailure()
      requires PulseMay(View(), PulseReports)
      modifies this`once, this`reported, this`pulse
      ensures View() == ApplyPulse(config, old(View()), PulseReports)
    {
      var first := EnterDisconnect(StreamFailure);
      pulse := if first then PulseInHandler else PulseDone;
    }

    method ReturnFromPulseHandler()
      requires PulseMay(View(), PulseReturns)
      modifies this`cancelled, this`once, this`pulse
      ensures View() == ApplyPulse(config, old(View()), PulseReturns)
    {
      LeaveDisconnect();
      pulse := PulseDone;
    }

    /** The receiver's non-blocking send: a burst of ACKs is coalesced. */
    method PostReceivedAck()
      requires ReceiverMay(View(), PostAck)
      modifies this`ackQueued, this`receiver
      ensures View() == ApplyReceiver(old(View()), PostAck)
    {
      if !ackQueued {
        ackQueued := true;
      }
      receiver := Receiving;
    }

    /** The `<-ackCh` branch takes the ACK and forgets the misses; the timer comes next. */
    method HandleAck()
      requires SelectMay(View(), TakeAck)
      modifies this`ack, this`ackQueued, this`missedAcks
      ensures View() == ApplySelect(old(View()), TakeAck)
    {
      ackQueued := false;
      missedAcks := 0;
      ack := AckTaken;
    }

    /** Stop the timer; if it has fired already, take its token. */
    method StopAndDrainTimer()
      requires BranchMay(View(), StopTimer)
      modifies this`ack, this`deadline, this`fired
      ensures View() == ApplyBranch(config, old(View()), StopTimer)
    {
      var stopped := deadline.At?;
      deadline := Off;
      if !stopped {
        fired := false;
      }
      ack := ResettingTimer;
    }

    method RearmTimer()
      requires BranchMay(View(), ResetTimer)
      modifies this`ack, this`deadline
      ensures View() == ApplyBranch(config, old(View()), ResetTimer)
    {
      deadline := At(now + config.ackTimeout);
      ack := AckSelect;
    }

    /** The `<-ackTimer.C` branch after the token is taken: look for a queued ACK once
        more, otherwise count a miss and decide whether to give up. */
    method HandleDeadline()
      requires BranchMay(View(), Recheck)
      modifies this`ack, this`ackQueued, this`missedAcks
      ensures View() == ApplyBranch(config, old(View()), Recheck)
    {
      if ackQueued {
        ackQueued := false;
        missedAcks := 0;
        ack := ResettingTimer;
        return;
      }
      missedAcks := missedAcks + 1;
      if missedAcks >= config.maxMissedAcks {
        ack := AckSignal(AckTimeout);
        return;
      }
      ack := ResettingTimer;
    }

    /** The `<-recvErrCh` branch: a receive error after cancellation is not reported. */
    method HandleReceiveError()
      requires BranchMay(View(), CheckContext)
      modifies this`ack, this`deadline
      ensures View() == ApplyBranch(config, old(View()), CheckContext)
    {
      if cancelled {
        ReturnFromAckLoop();
      } else {
        ack := AckSignal(StreamFailure);
      }
    }

    method ReportFromAckLoop()
      requires BranchMay(View(), AckReports)
      modifies this`once, this`reported, this`ack, this`deadline
      ensures View() == ApplyBranch(config, old(View()), AckReports)
    {
      var first := EnterDisconnect(ack.reason);
      if first {
        ack := AckInHandler;
      } else {
        ReturnFromAckLoop();
      }
    }

    method ReturnFromAckHandler()
      requires BranchMay(View(), AckReturns)
      modifies this`cancelled, this`once, this`ack, this`deadline
      ensures View() == ApplyBranch(config, old(View()), AckReturns)
    {
      LeaveDisconnect();
      ReturnFromAckLoop();
    }

    /** The ACK loop returns; its deferred call stops the timer. */
    method ReturnFromAckLoop()
      modifies this`ack, this`deadline
      ensures View() == FinishAckLoop(old(View()))
    {
      ack, deadline := AckDone, Off;
    }

    /** What the goroutines do not do themselves. */
    method PerformOutside(e: Event)
      requires Happens(View(), e)
      modifies this`now, this`cancelled, this`deadline, this`fired
      ensures View() == ApplyOutside(old(View()), e)
    {
      match e
      case Advance(elapsed) => now := now + elapsed;
      case TimerFires => deadline, fired := Off, true;
      case Close => cancelled := true;
    }

    method PerformPulse(p: PulseStep)
      requires PulseMay(View(), p)
      modifies this`pulse, this`once, this`reported, this`cancelled, this`sendClosed
      ensures View() == ApplyPulse(config, old(View()), p)
    {
      match p
      case PulseTick => pulse := PulseSending;
      case SendSucceeds => FinishPulse(false);
      case SendFails => FinishPulse(true);
      case PulseReports => ReportPulseFailure();
      case PulseReturns => ReturnFromPulseHandler();
      case PulseSeesCancel => sendClosed, pulse := true, PulseDone;
    }

    method PerformReceiver(p: ReceiverStep)
      requires ReceiverMay(View(), p)
      modifies this`receiver, this`ackQueued, this`errorQueued
      ensures View() == ApplyReceiver(old(View()), p)
    {
      match p
      case RecvAck => receiver := PostingAck;
      case PostAck => PostReceivedAck();
      case RecvFails => receiver := PostingError;
      case PostError => errorQueued, receiver := true, ReceiverDone;
      case ReceiverSeesCancel => receiver := ReceiverDone;
    }

    /** The branches of the ACK loop's `select`. */
    method PerformSelect(p: SelectStep)
      requires SelectMay(View(), p)
      modifies this`ack, this`ackQueued, this`errorQueued, this`missedAcks, this`deadline, this`fired
      ensures View() == ApplySelect(old(View()), p)
    {
      match p
      case TakeAck => HandleAck();
      case TakeDeadline => fired, ack := false, DeadlineTaken;
      case TakeError => errorQueued, ack := false, ErrorTaken;
      case AckSeesCancel => ReturnFromAckLoop();
    }

    /** What follows in the branch that was taken. */
    method PerformBranch(p: BranchStep)
      requires BranchMay(View(), p)
      modifies this
      ensures View() == ApplyBranch(config, old(View()), p)
    {
      match p
      case StopTimer => StopAndDrainTimer();
      case ResetTimer => RearmTimer();
      case Recheck => HandleDeadline();
      case CheckContext => HandleReceiveError();
      case AckReports => ReportFromAckLoop();
      case AckReturns => ReturnFromAckHandler();
    }

    /** Any step of an interleaving. */
    method Perform(l: Label)
      requires Enabled(View(), l)
      modifies this
      ensures View() == Apply(config, old(View()), l)
    {
      match l
      case Outside(e) => PerformOutside(e);
      case Pulse(p) => PerformPulse(p);
      case Receiver(p) => PerformReceiver(p);
      case Select(p) => PerformSelect(p);
      case Branch(p) => PerformBranch(p);
    }
  }
}
