/** The recipe command manager: keyboard commands and interrupts race over a channel of
    capacity one to a loop that fans each command out to the registered callbacks, or keeps
    it until the first callback registers. */
module Commands {
  import opened Sequences
  import opened Wrappers

  datatype Command = STOP | CANCEL

  datatype Source = Stdin | Interrupt

  /** A command on its way. The program does not carry the source along; it is kept here to
      state what becomes of each source's commands. */
  datatype Item = Item(source: Source, command: Command)

  /** One invocation of a callback; callbacks are numbered in the order they register. */
  datatype Call = Call(callback: nat, item: Item)

  // ---- specification of the manager ----

  datatype Manager = Manager(callbacks: nat, buffered: seq<Item>, calls: seq<Call>)

  /** A command given to callbacks `0` to `n - 1` in turn. */
  function Fanout(n: nat, item: Item): seq<Call> {
    if n == 0 then [] else Fanout(n - 1, item) + [Call(n - 1, item)]
  }

  /** Commands given to one callback in turn. */
  function Deliver(k: nat, items: seq<Item>): seq<Call> {
    if items == [] then [] else Deliver(k, items[..|items| - 1]) + [Call(k, items[|items| - 1])]
  }

  function Register(m: Manager): Manager {
    Manager(m.callbacks + 1, [], m.calls + Deliver(m.callbacks, m.buffered))
  }

  function Handle(m: Manager, item: Item): Manager {
    if m.callbacks == 0 then m.(buffered := m.buffered + [item])
    else m.(calls := m.calls + Fanout(m.callbacks, item))
  }

  /** What a callback has been given. */
  function Received(k: nat, calls: seq<Call>): seq<Item> {
    if calls == [] then []
    else Received(k, calls[..|calls| - 1]) + if calls[|calls| - 1].callback == k then [calls[|calls| - 1].item] else []
  }

  class RecipeCommandManager {
    var callbacks: nat
    var bufferedCommands: seq<Item>
    var calls: seq<Call>

    function Now(): Manager
      reads this
    {
      Manager(callbacks, bufferedCommands, calls)
    }

    constructor ()
      ensures Now() == Manager(0, [], [])
    {
      callbacks, bufferedCommands, calls := 0, [], [];
    }

    method Invoke(k: nat, item: Item)
      modifies this`calls
      ensures calls == old(calls) + [Call(k, item)]
    {
      calls := calls + [Call(k, item)];
    }

    method RegisterCallback()
      modifies this
      ensures Now() == Register(old(Now()))
    {
      ghost var was := calls;
      var k := callbacks;
      callbacks := callbacks + 1;
      var i := 0;
      NothingAdded(was);
      while i < |bufferedCommands|
        invariant 0 <= i <= |bufferedCommands|
        invariant callbacks == k + 1 && bufferedCommands == old(bufferedCommands)
        invariant calls == was + Deliver(k, bufferedCommands[..i])
      {
        Invoke(k, bufferedCommands[i]);
        assert bufferedCommands[..i + 1][..i] == bufferedCommands[..i];
        Assoc(was, Deliver(k, bufferedCommands[..i]), [Call(k, bufferedCommands[i])]);
        i := i + 1;
      }
      assert bufferedCommands[..i] == bufferedCommands;
      bufferedCommands := [];
    }

    method HandleCommand(item: Item)
      modifies this
      ensures Now() == Handle(old(Now()), item)
    {
      if callbacks == 0 {
        bufferedCommands := bufferedCommands + [item];
        return;
      }
      ghost var was := calls;
      var i := 0;
      NothingAdded(was);
      while i < callbacks
        invariant 0 <= i <= callbacks == old(callbacks) && bufferedCommands == old(bufferedCommands)
        invariant calls == was + Fanout(i, item)
      {
        Invoke(i, item);
        Assoc(was, Fanout(i, item), [Call(i, item)]);
        i := i + 1;
      }
    }
  }

  // ---- the receivers ----

  /** `byteToCommand`. */
  function CommandFor(b: char): Option<Command> {
    match b
    case 's' => Some(STOP)
    case 'c' => Some(CANCEL)
    case 'q' => Some(CANCEL)
    case _ => None
  }

  /** The commands that the bytes read stand for. */
  function Mapped(bytes: seq<char>): seq<Command> {
    if bytes == [] then []
    else Mapped(bytes[..|bytes| - 1]) + One(CommandFor(bytes[|bytes| - 1]))
  }

  function Number<T(==)>(x: T, xs: seq<T>): nat {
    if xs == [] then 0 else Number(x, xs[..|xs| - 1]) + if xs[|xs| - 1] == x then 1 else 0
  }

  lemma NumberOn<T>(x: T, xs: seq<T>, y: T)
    ensures Number(x, xs + [y]) == Number(x, xs) + if y == x then 1 else 0
  {
    assert (xs + [y])[..|xs|] == xs;
  }

  /** Every `s` read asks for a stop, every `c` and every `q` for a cancellation, and nothing
      else does. */
  lemma {:induction false} MappedCounts(bytes: seq<char>)
    ensures Number(STOP, Mapped(bytes)) == Number('s', bytes)
    ensures Number(CANCEL, Mapped(bytes)) == Number('c', bytes) + Number('q', bytes)
  {
    if bytes != [] {
      var n := |bytes| - 1;
      MappedCounts(bytes[..n]);
      match CommandFor(bytes[n])
      case None => NothingAdded(Mapped(bytes[..n]));
      case Some(cmd) =>
        NumberOn(STOP, Mapped(bytes[..n]), cmd);
        NumberOn(CANCEL, Mapped(bytes[..n]), cmd);
    }
  }

  /** At most one element. */
  function One<T>(x: Option<T>): seq<T> {
    match x
    case None => []
    case Some(value) => [value]
  }

  /** The stdin receiver's loop; a read fails behind the given bytes. */
  method ReceiveStdin(bytes: seq<char>) returns (out: seq<Command>)
    ensures out == Mapped(bytes)
  {
    out := [];
    var i := 0;
    while i < |bytes|
      invariant 0 <= i <= |bytes|
      invariant out == Mapped(bytes[..i])
    {
      assert bytes[..i + 1][..i] == bytes[..i];
      match CommandFor(bytes[i]) {
        case Some(cmd) => out := out + [cmd];
        case None => NothingAdded(out);
      }
      i := i + 1;
    }
    assert bytes[..i] == bytes;
  }

  /** The interrupt receiver's loop over `signals` deliveries: the configured commands in
      order until they are used up. From then on, and from the start if there are none,
      interrupts have their default effect. */
  method ReceiveInterrupts(cmds: seq<Command>, signals: nat) returns (out: seq<Command>, byDefault: bool)
    ensures out == cmds[..if signals < |cmds| then signals else |cmds|]
    ensures byDefault <==> signals >= |cmds|
  {
    out, byDefault := [], |cmds| == 0;
    var interruptLevel := 0;
    while interruptLevel < signals && !byDefault
      invariant 0 <= interruptLevel <= |cmds| && interruptLevel <= signals
      invariant out == cmds[..interruptLevel] && (byDefault <==> interruptLevel == |cmds|)
    {
      assert cmds[..interruptLevel + 1] == cmds[..interruptLevel] + [cmds[interruptLevel]];
      out := out + [cmds[interruptLevel]];
      interruptLevel := interruptLevel + 1;
      if interruptLevel >= |cmds| {
        byDefault := true;
      }
    }
  }

  // ---- the whole: interleavings ----

  /** The interrupt goroutine: not started, waiting for a signal, sending, between its last
      send and `Reset`, between `Reset` and the look for a pending signal, or gone. */
  datatype InterruptPc = Off | Awaiting | Sending | Finishing | Restored | Gone

  datatype State = State(
    manager: Manager,
    handled: seq<Item>,          // the commands handled, in order
    registeredAt: seq<nat>,      // per callback, how many had been handled when it registered
    handling: Option<Item>,      // taken from the channel, waiting for the lock
    channel: Option<Item>,
    bytes: seq<char>,            // the bytes read
    stdinSends: Option<Item>,    // the command the stdin goroutine is blocked on
    stdinEnded: bool,
    raised: nat,                 // interrupts raised
    pending: bool,               // the signal channel holds one
    level: nat,
    pc: InterruptPc,
    killed: bool                 // an interrupt had its default effect
  )

  datatype Label =
    | Registers
    | Reads(byte: char)
    | StdinEnds
    | StdinSent
    | Raise
    | TakeSignal
    | InterruptSent
    | Reset
    | StopAndReraise(ok: bool)
    | Take
    | Handled

  function Init(cmds: seq<Command>): State {
    State(Manager(0, [], []), [], [], None, None, [], None, false, 0, false, 0,
          if cmds == [] then Off else Awaiting, false)
  }

  predicate Enabled(cmds: seq<Command>, s: State, l: Label) {
    && !s.killed
    && match l
       case Registers => true
       case Reads(_) => !s.stdinEnded && s.stdinSends.None?
       case StdinEnds => !s.stdinEnded && s.stdinSends.None?
       case StdinSent => s.stdinSends.Some? && s.channel.None?
       case Raise => true
       case TakeSignal => s.pc.Awaiting? && s.pending
       case InterruptSent => s.pc.Sending? && s.level < |cmds| && s.channel.None?
       case Reset => s.pc.Finishing?
       case StopAndReraise(_) => s.pc.Restored?
       case Take => s.channel.Some? && s.handling.None?
       case Handled => s.handling.Some?
  }

  function Apply(cmds: seq<Command>, s: State, l: Label): State
    requires Enabled(cmds, s, l)
  {
    match l
    case Registers => s.(manager := Register(s.manager), registeredAt := s.registeredAt + [|s.handled|])
    case Reads(b) =>
      s.(bytes := s.bytes + [b],
         stdinSends := if CommandFor(b).Some? then Some(Item(Stdin, CommandFor(b).value)) else None)
    case StdinEnds => s.(stdinEnded := true)
    case StdinSent => s.(channel := s.stdinSends, stdinSends := None)
    case Raise =>
      if s.pc in {Off, Restored, Gone} then s.(raised := s.raised + 1, killed := true)
      else s.(raised := s.raised + 1, pending := true)
    case TakeSignal => s.(pending := false, pc := Sending)
    case InterruptSent =>
      s.(channel := Some(Item(Interrupt, cmds[s.level])), level := s.level + 1,
         pc := if s.level + 1 >= |cmds| then Finishing else Awaiting)
    case Reset => s.(pc := Restored)
    case StopAndReraise(ok) => s.(pc := Gone, killed := s.pending && ok, pending := false)
    case Take => s.(handling := s.channel, channel := None)
    case Handled =>
      s.(manager := Handle(s.manager, s.handling.value), handled := s.handled + [s.handling.value], handling := None)
  }

  /** A run; a label that cannot happen when its turn comes is passed over. */
  function Run(cmds: seq<Command>, labels: seq<Label>): State {
    if labels == [] then Init(cmds)
    else
      var s := Run(cmds, labels[..|labels| - 1]);
      if Enabled(cmds, s, labels[|labels| - 1]) then Apply(cmds, s, labels[|labels| - 1]) else s
  }

  // ---- delivery ----

  lemma ReceivedAppend(k: nat, calls: seq<Call>, c: Call)
    ensures Received(k, calls + [c]) == Received(k, calls) + if c.callback == k then [c.item] else []
  {
    assert (calls + [c])[..|calls|] == calls;
  }

  lemma {:induction false} ReceivedConcat(k: nat, a: seq<Call>, b: seq<Call>)
    ensures Received(k, a + b) == Received(k, a) + Received(k, b)
  {
    if b == [] {
      NothingAdded(a);
      NothingAdded(Received(k, a));
    } else {
      var n := |b| - 1;
      ReceivedConcat(k, a, b[..n]);
      assert b == b[..n] + [b[n]];
      Assoc(a, b[..n], [b[n]]);
      ReceivedAppend(k, a + b[..n], b[n]);
      Assoc(Received(k, a), Received(k, b[..n]), if b[n].callback == k then [b[n].item] else []);
    }
  }

  /** A fanned-out command reaches each of the callbacks exactly once. */
  lemma {:induction false} FanoutReceived(k: nat, n: nat, item: Item)
    ensures Received(k, Fanout(n, item)) == if k < n then [item] else []
  {
    if n > 0 {
      FanoutReceived(k, n - 1, item);
      ReceivedAppend(k, Fanout(n - 1, item), Call(n - 1, item));
    }
  }

  lemma {:induction false} DeliverReceived(k: nat, n: nat, items: seq<Item>)
    ensures Received(k, Deliver(n, items)) == if k == n then items else []
  {
    if items != [] {
      var i := |items| - 1;
      DeliverReceived(k, n, items[..i]);
      ReceivedAppend(k, Deliver(n, items[..i]), Call(n, items[i]));
      assert items == items[..i] + [items[i]];
    }
  }

  /** From where on a callback is given the handled commands: the first one from the very
      beginning, any other from its registration. */
  function Since(registeredAt: seq<nat>, k: nat): nat
    requires k < |registeredAt|
  {
    if k == 0 then 0 else registeredAt[k]
  }

  /** Callback `k` has been given exactly the commands handled since its start, in order. */
  predicate Given(s: State, k: nat)
    requires k < |s.registeredAt|
  {
    RegisteredInTime(s, k) && Received(k, s.manager.calls) == s.handled[Since(s.registeredAt, k)..]
  }

  predicate RegisteredInTime(s: State, k: nat)
    requires k < |s.registeredAt|
  {
    s.registeredAt[k] <= |s.handled|
  }

  ghost predicate Delivery(s: State) {
    && |s.registeredAt| == s.manager.callbacks
    && (s.manager.callbacks == 0 ==> s.manager.buffered == s.handled)
    && (s.manager.callbacks > 0 ==> s.manager.buffered == [])
    && (forall k: nat :: k < s.manager.callbacks ==> Given(s, k))
    && (forall k: nat :: k >= s.manager.callbacks ==> Received(k, s.manager.calls) == [])
  }

  lemma RegisterDelivers(cmds: seq<Command>, s: State)
    requires Delivery(s) && Enabled(cmds, s, Registers)
    ensures Delivery(Apply(cmds, s, Registers))
  {
    var t := Apply(cmds, s, Registers);
    var n := s.manager.callbacks;
    forall k: nat
      ensures Received(k, t.manager.calls) ==
                Received(k, s.manager.calls) + if k == n then s.manager.buffered else []
    {
      ReceivedConcat(k, s.manager.calls, Deliver(n, s.manager.buffered));
      DeliverReceived(k, n, s.manager.buffered);
    }
    forall k: nat | k <= n ensures Given(t, k) {
      if k < n {
        assert Given(s, k);
      }
    }
  }

  lemma HandleDelivers(cmds: seq<Command>, s: State)
    requires Delivery(s) && Enabled(cmds, s, Handled)
    ensures Delivery(Apply(cmds, s, Handled))
  {
    var t := Apply(cmds, s, Handled);
    var n, item := s.manager.callbacks, s.handling.value;
    if n > 0 {
      forall k: nat
        ensures Received(k, t.manager.calls) == Received(k, s.manager.calls) + if k < n then [item] else []
      {
        ReceivedConcat(k, s.manager.calls, Fanout(n, item));
        FanoutReceived(k, n, item);
      }
      forall k: nat | k < n ensures Given(t, k) {
        assert Given(s, k);
      }
    }
  }

  /** The first callback gets the full sequence of handled commands, each later one exactly
      those handled after it registered; nothing is lost, repeated or reordered. */
  lemma {:induction false} EveryCallbackIsServed(cmds: seq<Command>, labels: seq<Label>)
    ensures Delivery(Run(cmds, labels))
  {
    if labels != [] {
      var n := |labels| - 1;
      var s, l := Run(cmds, labels[..n]), labels[n];
      EveryCallbackIsServed(cmds, labels[..n]);
      if Enabled(cmds, s, l) {
        if l.Registers? {
          RegisterDelivers(cmds, s);
        } else if l.Handled? {
          HandleDelivers(cmds, s);
        } else {
          SameDelivery(s, Apply(cmds, s, l));
        }
      }
    }
  }

  lemma SameDelivery(s: State, t: State)
    requires Delivery(s)
    requires t.manager == s.manager && t.handled == s.handled && t.registeredAt == s.registeredAt
    ensures Delivery(t)
  {
    forall k: nat | k < t.manager.callbacks ensures Given(t, k) {
      assert Given(s, k);
    }
  }

  // ---- per-source order ----

  /** The commands of one source. */
  function Of(src: Source, items: seq<Item>): seq<Command> {
    if items == [] then []
    else
      Of(src, items[..|items| - 1])
      + if items[|items| - 1].source == src then [items[|items| - 1].command] else []
  }

  /** All commands sent, in the order they went into the channel. */
  function Sent(s: State): seq<Item> {
    s.handled + One(s.handling) + One(s.channel)
  }

  ghost predicate StdinInOrder(s: State) {
    && Of(Stdin, Sent(s)) + Of(Stdin, One(s.stdinSends)) == Mapped(s.bytes)
    && (s.stdinSends.Some? ==> s.stdinSends.value.source == Stdin)
  }

  ghost predicate InterruptsInOrder(cmds: seq<Command>, s: State) {
    LevelFits(cmds, s) && Of(Interrupt, Sent(s)) == cmds[..s.level]
  }

  lemma OfAppend(src: Source, items: seq<Item>, item: Item)
    ensures Of(src, items + [item]) == Of(src, items) + if item.source == src then [item.command] else []
  {
    assert (items + [item])[..|items|] == items;
  }

  lemma OfOne(src: Source, item: Item)
    ensures Of(src, [item]) == if item.source == src then [item.command] else []
  {
    assert [item][..0] == [];
  }

  /** Any other step leaves the commands sent as they are, perhaps moving them along. */
  predicate Sends(l: Label) {
    l.StdinSent? || l.InterruptSent?
  }

  lemma SentStays(cmds: seq<Command>, s: State, l: Label)
    requires Enabled(cmds, s, l) && !Sends(l)
    ensures Sent(Apply(cmds, s, l)) == Sent(s)
  {
    if l.Take? {
      NothingAdded(s.handled);
      NothingAdded(Sent(s));
    } else if l.Handled? {
      NothingAdded(s.handled + [s.handling.value]);
    }
  }

  lemma SentGrows(cmds: seq<Command>, s: State, l: Label)
    requires Enabled(cmds, s, l) && Sends(l)
    ensures Sent(Apply(cmds, s, l)) ==
              Sent(s) + [if l.StdinSent? then s.stdinSends.value else Item(Interrupt, cmds[s.level])]
  {
    NothingAdded(s.handled + One(s.handling));
  }

  lemma MappedGrows(bytes: seq<char>, b: char)
    ensures Mapped(bytes + [b]) == Mapped(bytes) + One(CommandFor(b))
  {
    assert (bytes + [b])[..|bytes|] == bytes;
  }

  lemma StdinReads(cmds: seq<Command>, s: State, b: char)
    requires StdinInOrder(s) && Enabled(cmds, s, Reads(b))
    ensures StdinInOrder(Apply(cmds, s, Reads(b)))
  {
    MappedGrows(s.bytes, b);
    NothingAdded(Of(Stdin, Sent(s)));
    if CommandFor(b).Some? {
      OfOne(Stdin, Item(Stdin, CommandFor(b).value));
    }
  }

  lemma StdinSends(s: State)
    requires StdinInOrder(s) && s.stdinSends.Some?
    ensures Of(Stdin, Sent(s) + [s.stdinSends.value]) + [] == Mapped(s.bytes)
  {
    OfAppend(Stdin, Sent(s), s.stdinSends.value);
    OfOne(Stdin, s.stdinSends.value);
    NothingAdded(Of(Stdin, Sent(s)) + Of(Stdin, One(s.stdinSends)));
  }

  /** The stdin goroutine's own fields, and the interrupt level. */
  lemma FieldsStay(cmds: seq<Command>, s: State, l: Label)
    requires Enabled(cmds, s, l) && !Sends(l) && !l.Reads?
    ensures var t := Apply(cmds, s, l);
            t.bytes == s.bytes && t.stdinSends == s.stdinSends && t.level == s.level
  {
  }

  lemma StdinSame(s: State, t: State)
    requires StdinInOrder(s) && Sent(t) == Sent(s) && t.bytes == s.bytes && t.stdinSends == s.stdinSends
    ensures StdinInOrder(t)
  {
  }

  /** A command joins the ones sent: the stdin goroutine's own, or the other's. */
  lemma StdinJoins(s: State, t: State, item: Item)
    requires StdinInOrder(s) && Sent(t) == Sent(s) + [item] && t.bytes == s.bytes
    requires if item.source == Stdin then s.stdinSends == Some(item) && t.stdinSends == None
             else t.stdinSends == s.stdinSends
    ensures StdinInOrder(t)
  {
    if item.source == Stdin {
      StdinSends(s);
    } else {
      OfAppend(Stdin, Sent(s), item);
      NothingAdded(Of(Stdin, Sent(s)));
    }
  }

  lemma StdinStep(cmds: seq<Command>, s: State, l: Label)
    requires StdinInOrder(s) && Enabled(cmds, s, l)
    ensures StdinInOrder(Apply(cmds, s, l))
  {
    if l.Reads? {
      StdinReads(cmds, s, l.byte);
    } else if l.StdinSent? {
      SentGrows(cmds, s, l);
      StdinJoins(s, Apply(cmds, s, l), s.stdinSends.value);
    } else if l.InterruptSent? {
      SentGrows(cmds, s, l);
      StdinJoins(s, Apply(cmds, s, l), Item(Interrupt, cmds[s.level]));
    } else {
      SentStays(cmds, s, l);
      FieldsStay(cmds, s, l);
      StdinSame(s, Apply(cmds, s, l));
    }
  }

  /** Where the interrupt goroutine stands, by how many commands it has sent. */
  predicate LevelFits(cmds: seq<Command>, s: State) {
    && (s.pc.Off? <==> cmds == [])
    && s.level <= |cmds| && (s.pc in {Off, Finishing, Restored, Gone} <==> s.level == |cmds|)
  }

  lemma LevelStep(cmds: seq<Command>, s: State, l: Label)
    requires LevelFits(cmds, s) && Enabled(cmds, s, l)
    ensures LevelFits(cmds, Apply(cmds, s, l))
  {
  }

  lemma InterruptsSame(cmds: seq<Command>, s: State, t: State)
    requires InterruptsInOrder(cmds, s) && LevelFits(cmds, t) && Sent(t) == Sent(s) && t.level == s.level
    ensures InterruptsInOrder(cmds, t)
  {
  }

  lemma InterruptsJoin(cmds: seq<Command>, s: State, t: State, item: Item)
    requires InterruptsInOrder(cmds, s) && LevelFits(cmds, t) && Sent(t) == Sent(s) + [item]
    requires if item.source == Interrupt
             then s.level < |cmds| && item.command == cmds[s.level] && t.level == s.level + 1
             else t.level == s.level
    ensures InterruptsInOrder(cmds, t)
  {
    OfAppend(Interrupt, Sent(s), item);
    if item.source == Interrupt {
      assert cmds[..s.level + 1] == cmds[..s.level] + [cmds[s.level]];
    } else {
      NothingAdded(Of(Interrupt, Sent(s)));
    }
  }

  lemma InterruptStep(cmds: seq<Command>, s: State, l: Label)
    requires StdinInOrder(s) && InterruptsInOrder(cmds, s) && Enabled(cmds, s, l)
    ensures InterruptsInOrder(cmds, Apply(cmds, s, l))
  {
    LevelStep(cmds, s, l);
    if l.InterruptSent? {
      SentGrows(cmds, s, l);
      InterruptsJoin(cmds, s, Apply(cmds, s, l), Item(Interrupt, cmds[s.level]));
    } else if l.StdinSent? {
      SentGrows(cmds, s, l);
      InterruptsJoin(cmds, s, Apply(cmds, s, l), s.stdinSends.value);
    } else {
      SentStays(cmds, s, l);
      LevelStays(cmds, s, l);
      InterruptsSame(cmds, s, Apply(cmds, s, l));
    }
  }

  lemma LevelStays(cmds: seq<Command>, s: State, l: Label)
    requires Enabled(cmds, s, l) && !Sends(l)
    ensures Apply(cmds, s, l).level == s.level
  {
  }

  /** Per source, the commands sent (handled ones first) followed by the one the source is
      blocked on are the mapped bytes read, and a prefix of the configured list as long as
      the interrupt level. */
  lemma {:induction false} SourcesKeepOrder(cmds: seq<Command>, labels: seq<Label>)
    ensures StdinInOrder(Run(cmds, labels)) && InterruptsInOrder(cmds, Run(cmds, labels))
  {
    if labels != [] {
      var n := |labels| - 1;
      var s, l := Run(cmds, labels[..n]), labels[n];
      SourcesKeepOrder(cmds, labels[..n]);
      if Enabled(cmds, s, l) {
        StdinStep(cmds, s, l);
        InterruptStep(cmds, s, l);
      }
    }
  }

  lemma EndStays(cmds: seq<Command>, s: State, l: Label)
    requires Enabled(cmds, s, l) && s.stdinEnded
    ensures Apply(cmds, s, l).stdinEnded && Apply(cmds, s, l).bytes == s.bytes
  {
  }

  /** Once reading has failed nothing more is read. */
  lemma {:induction false} EndIsFinal(cmds: seq<Command>, labels: seq<Label>, n: nat)
    requires n < |labels| && labels[n] == StdinEnds && Enabled(cmds, Run(cmds, labels[..n]), StdinEnds)
    ensures Run(cmds, labels).stdinEnded && Run(cmds, labels).bytes == Run(cmds, labels[..n]).bytes
  {
    var m := |labels| - 1;
    if n < m {
      assert labels[..m][..n] == labels[..n];
      EndIsFinal(cmds, labels[..m], n);
      if Enabled(cmds, Run(cmds, labels[..m]), labels[m]) {
        EndStays(cmds, Run(cmds, labels[..m]), labels[m]);
      }
    }
  }

  // ---- nothing gets stuck ----

  /** No command is anywhere between its source and the callbacks. */
  predicate Quiet(s: State) {
    s.handling.None? && s.channel.None? && s.stdinSends.None? && !s.pc.Sending?
  }

  /** The hops that commands in flight still have before them. */
  function HopsLeft(s: State): nat {
    (if s.handling.Some? then 1 else 0) + (if s.channel.Some? then 2 else 0)
    + (if s.stdinSends.Some? then 3 else 0) + (if s.pc.Sending? then 3 else 0)
  }

  predicate Internal(l: Label) {
    l in {StdinSent, InterruptSent, Take, Handled}
  }

  /** As long as a command is in flight, a goroutine of the manager can move it: a full
      channel and two blocked senders never deadlock. */
  lemma SomethingMoves(cmds: seq<Command>, labels: seq<Label>) returns (l: Label)
    requires var s := Run(cmds, labels); !s.killed && !Quiet(s)
    ensures Internal(l) && Enabled(cmds, Run(cmds, labels), l)
    ensures HopsLeft(Apply(cmds, Run(cmds, labels), l)) < HopsLeft(Run(cmds, labels))
  {
    var s := Run(cmds, labels);
    SourcesKeepOrder(cmds, labels);
    l := if s.handling.Some? then Handled
    else if s.channel.Some? then Take
    else if s.stdinSends.Some? then StdinSent
    else InterruptSent;
  }

  lemma RunGrows(cmds: seq<Command>, labels: seq<Label>, l: Label)
    requires Enabled(cmds, Run(cmds, labels), l)
    ensures Run(cmds, labels + [l]) == Apply(cmds, Run(cmds, labels), l)
  {
    assert (labels + [l])[..|labels|] == labels;
  }

  /** Left alone, the manager delivers everything read so far: the first callback then has
      every keyboard command in order. */
  lemma {:induction false} EverythingReadIsDelivered(cmds: seq<Command>, labels: seq<Label>) returns (more: seq<Label>)
    requires !Run(cmds, labels).killed
    ensures forall l <- more :: Internal(l)
    ensures |more| <= HopsLeft(Run(cmds, labels))
    ensures var s, t := Run(cmds, labels), Run(cmds, labels + more);
            && Quiet(t) && !t.killed && t.level <= |cmds| && t.bytes == s.bytes && t.manager.callbacks == s.manager.callbacks
            && Of(Stdin, t.handled) == Mapped(s.bytes)
            && Of(Interrupt, t.handled) == cmds[..t.level]
            && (t.manager.callbacks > 0 ==> Received(0, t.manager.calls) == t.handled)
    decreases HopsLeft(Run(cmds, labels))
  {
    var s := Run(cmds, labels);
    if Quiet(s) {
      more := [];
      NothingAdded(labels);
      SourcesKeepOrder(cmds, labels);
      EveryCallbackIsServed(cmds, labels);
      NothingAdded(s.handled);
      NothingAdded(Of(Stdin, s.handled));
      assert s.manager.callbacks > 0 ==> Given(s, 0);
    } else {
      var l := SomethingMoves(cmds, labels);
      RunGrows(cmds, labels, l);
      var rest := EverythingReadIsDelivered(cmds, labels + [l]);
      Assoc(labels, [l], rest);
      more := [l] + rest;
    }
  }

  // ---- interrupts ----

  ghost predicate InterruptsCount(s: State) {
    && s.level + (if s.pc.Sending? then 1 else 0) + (if s.pending then 1 else 0) <= s.raised
    && (s.raised > 0 ==> s.killed || s.level > 0 || s.pc.Sending? || s.pending)
    && (s.pc.Off? ==> !s.pending) && (s.pc.Gone? ==> !s.pending)
  }

  lemma InterruptsCountStep(cmds: seq<Command>, s: State, l: Label)
    requires InterruptsCount(s) && LevelFits(cmds, s) && Enabled(cmds, s, l)
    ensures InterruptsCount(Apply(cmds, s, l))
  {
    if l.InterruptSent? {
      SentKeepsCount(cmds, s);
    } else if !l.Raise? && !l.TakeSignal? && !l.Reset? && !l.StopAndReraise? {
      OtherKeepsCount(cmds, s, l);
    }
  }

  lemma SentKeepsCount(cmds: seq<Command>, s: State)
    requires InterruptsCount(s) && Enabled(cmds, s, InterruptSent)
    ensures InterruptsCount(Apply(cmds, s, InterruptSent))
  {
  }

  lemma OtherKeepsCount(cmds: seq<Command>, s: State, l: Label)
    requires InterruptsCount(s) && Enabled(cmds, s, l)
    requires !l.InterruptSent? && !l.Raise? && !l.TakeSignal? && !l.Reset? && !l.StopAndReraise?
    ensures InterruptsCount(Apply(cmds, s, l))
  {
  }

  /** Each command of the interrupt receiver answers an interrupt of its own, and the first
      interrupt is never lost: it becomes a command or has its default effect. */
  lemma {:induction false} InterruptsAreAnswered(cmds: seq<Command>, labels: seq<Label>)
    ensures InterruptsCount(Run(cmds, labels))
  {
    if labels != [] {
      var n := |labels| - 1;
      InterruptsAreAnswered(cmds, labels[..n]);
      SourcesKeepOrder(cmds, labels[..n]);
      if Enabled(cmds, Run(cmds, labels[..n]), labels[n]) {
        InterruptsCountStep(cmds, Run(cmds, labels[..n]), labels[n]);
      }
    }
  }

  /** Once the configured commands are used up, a further interrupt has its default effect:
      at once after `Reset`, and before that when the receiver finds it pending. */
  lemma ExhaustedMeansDefault(cmds: seq<Command>, labels: seq<Label>)
    requires var s := Run(cmds, labels); !s.killed && s.level == |cmds|
    ensures Enabled(cmds, Run(cmds, labels), Raise)
    ensures var t := Apply(cmds, Run(cmds, labels), Raise);
            t.killed || (t.pending && t.pc.Finishing?
                         && Enabled(cmds, t, Reset) && Enabled(cmds, Apply(cmds, t, Reset), StopAndReraise(true))
                         && Apply(cmds, Apply(cmds, t, Reset), StopAndReraise(true)).killed)
  {
    var s := Run(cmds, labels);
    SourcesKeepOrder(cmds, labels);
    RaisedWhenExhausted(cmds, s);
    var t := Apply(cmds, s, Raise);
    if !t.killed {
      PendingKills(cmds, t);
    }
  }

  lemma RaisedWhenExhausted(cmds: seq<Command>, s: State)
    requires !s.killed && LevelFits(cmds, s) && s.level == |cmds|
    ensures Enabled(cmds, s, Raise)
    ensures var t := Apply(cmds, s, Raise); t.killed || (t.pending && t.pc.Finishing?)
  {
  }

  /** The receiver has sent its last command and finds one more interrupt pending. */
  lemma PendingKills(cmds: seq<Command>, t: State)
    requires !t.killed && t.pending && t.pc.Finishing?
    ensures Enabled(cmds, t, Reset)
    ensures var u := Apply(cmds, t, Reset);
            Enabled(cmds, u, StopAndReraise(true)) && Apply(cmds, u, StopAndReraise(true)).killed
  {
  }
}
