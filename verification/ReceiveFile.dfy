/** Receiving a file from the agent: the stream goes through a buffered writer into a
    temporary file, which takes the destination's place when it is complete. Any single
    operation may fail. */
module ReceiveFile {
  import opened Sequences
  import opened Wrappers
  import opened Faults

  newtype Byte = x: int | 0 <= x < 256

  type Content = seq<Byte>

  type Files = map<string, Content>

  // ---- the stream ----

  /** What the stream answers, and whether the context is cancelled by then. */
  datatype Answer = Answer(received: Received, cancelled: bool)

  datatype Received = Chunk(content: Content) | Eof | RecvFails

  datatype StreamEnd = Complete | Cancelled | Broken

  /** How a stream ends: whichever comes first, a clean end, a cancelled context or a failure.
      A clean end counts even when the context is cancelled by then. */
  function EndOf(answers: seq<Answer>): StreamEnd {
    if answers == [] then Broken
    else if answers[0].received.Eof? then Complete
    else if answers[0].cancelled then Cancelled
    else if answers[0].received.RecvFails? then Broken
    else EndOf(answers[1..])
  }

  /** No chunk is taken from this answer, and no further answer is asked for. */
  predicate Final(a: Answer) {
    a.received.Eof? || a.cancelled || a.received.RecvFails?
  }

  /** The chunks delivered before the stream ends. */
  function Delivered(answers: seq<Answer>): seq<Content> {
    if answers == [] || Final(answers[0]) then []
    else [answers[0].received.content] + Delivered(answers[1..])
  }

  /** The first final answer, the one at `i`, decides how the stream ends, and everything in
      front of it is delivered. Without one the stream breaks off. */
  lemma {:induction false} FirstFinalDecides(answers: seq<Answer>, i: nat)
    requires i <= |answers| && forall j :: 0 <= j < i ==> !Final(answers[j])
    requires i < |answers| ==> Final(answers[i])
    ensures |Delivered(answers)| == i
    ensures forall j :: 0 <= j < i ==> answers[j].received == Chunk(Delivered(answers)[j])
    ensures EndOf(answers).Complete? <==> i < |answers| && answers[i].received.Eof?
    ensures EndOf(answers).Cancelled? <==> i < |answers| && !answers[i].received.Eof? && answers[i].cancelled
  {
    if i > 0 {
      FirstFinalDecides(answers[1..], i - 1);
    }
  }

  function Sum(counts: seq<nat>): nat {
    if counts == [] then 0 else Sum(counts[..|counts| - 1]) + counts[|counts| - 1]
  }

  /** The progress reports for the chunks accepted: one for each chunk that is not empty. */
  function Reports(chunks: seq<Content>): seq<nat> {
    if chunks == [] then []
    else Reports(chunks[..|chunks| - 1])
         + if chunks[|chunks| - 1] == [] then [] else [|chunks[|chunks| - 1]|]
  }

  lemma {:induction false} ConcatMore(a: seq<Content>, b: seq<Content>)
    ensures Concat(a) <= Concat(a + b)
  {
    if b == [] {
      NothingAdded(a);
    } else {
      var n := |b| - 1;
      ConcatMore(a, b[..n]);
      assert a + b == a + b[..n] + [b[n]];
      Appended(a + b[..n], b[n]);
    }
  }

  /** Reported progress sums to the bytes of the chunks reported on. */
  lemma {:induction false} ReportsSum(chunks: seq<Content>)
    ensures Sum(Reports(chunks)) == |Concat(chunks)|
  {
    if chunks != [] {
      var n := |chunks| - 1;
      ReportsSum(chunks[..n]);
      if chunks[n] != [] {
        Appended(Reports(chunks[..n]), |chunks[n]|);
      } else {
        NothingAdded(Reports(chunks[..n]));
      }
    }
  }

  /** The first `i` answers have brought the chunks `accepted`, and none of them was final. */
  predicate ReadTo(answers: seq<Answer>, i: nat, accepted: seq<Content>)
    requires i <= |answers|
  {
    Delivered(answers) == accepted + Delivered(answers[i..]) && EndOf(answers) == EndOf(answers[i..])
  }

  predicate Extends<T(==)>(a: seq<T>, b: seq<T>) {
    |a| <= |b| && b[..|a|] == a
  }

  lemma ReadNone(answers: seq<Answer>)
    ensures ReadTo(answers, 0, []) && Extends([], Delivered(answers))
  {
    assert answers[0..] == answers;
  }

  lemma ReadOn(answers: seq<Answer>, i: nat, accepted: seq<Content>)
    requires i < |answers| && ReadTo(answers, i, accepted) && !Final(answers[i])
    ensures ReadTo(answers, i + 1, accepted + [answers[i].received.content])
    ensures Concat(accepted) + answers[i].received.content <= Concat(Delivered(answers))
    ensures Concat(accepted) <= Concat(Delivered(answers))
    ensures Extends(accepted, Delivered(answers))
  {
    var chunk := answers[i].received.content;
    assert answers[i..][1..] == answers[i + 1..];
    Assoc(accepted, [chunk], Delivered(answers[i + 1..]));
    ConcatMore(accepted, Delivered(answers[i..]));
    ConcatMore(accepted + [chunk], Delivered(answers[i + 1..]));
    Appended(accepted, chunk);
  }

  lemma ReadAll(answers: seq<Answer>, i: nat, accepted: seq<Content>)
    requires i <= |answers| && ReadTo(answers, i, accepted) && (i < |answers| ==> Final(answers[i]))
    ensures accepted == Delivered(answers) && Extends(accepted, Delivered(answers))
    ensures EndOf(answers) == if i == |answers| then Broken
                              else if answers[i].received.Eof? then Complete
                              else if answers[i].cancelled then Cancelled
                              else Broken
  {
    NothingAdded(accepted);
  }

  // ---- the disk ----

  datatype Op =
    | MkdirAll
    | Retrieve
    | CreateTemp(name: string)
    | Write(name: string)
    | Sync(name: string)
    | Close(name: string)
    | Rename(name: string, to: string)
    | Remove(name: string)

  /** The local disk, with every operation attempted and every state the files went through.
      `cut` is what a failing write still gets into its file. */
  class Disk {
    const cut: nat
    var files: Files
    var faults: seq<bool>
    var ops: seq<Op>
    ghost var trail: seq<Files>

    ghost predicate Valid()
      reads this
    {
      trail != [] && trail[|trail| - 1] == files
    }

    constructor (files: Files, faults: seq<bool>, cut: nat)
      ensures this.files == files && this.faults == faults && ops == [] && trail == [files]
    {
      this.files, this.faults, this.cut, ops, trail := files, faults, cut, [], [files];
    }

    ghost function Now(): Moment
      reads this
    {
      Moment(trail, ops, faults)
    }

    method Attempt(op: Op) returns (ok: bool)
      modifies this`ops, this`faults
      ensures ops == old(ops) + [op]
      ensures UsesUp(old(faults), faults)
      ensures ok <==> FaultFree(old(faults), faults)
    {
      var fails;
      fails, faults := Draw(faults);
      ops := ops + [op];
      ok := !fails;
    }

    method Become(now: Files)
      modifies this`files, this`trail
      ensures files == now && trail == old(trail) + [now]
    {
      files := now;
      trail := trail + [now];
    }

    /** A write to an open file: all of it, or the part that still fits before the failure. */
    method Append(name: string, bytes: Content) returns (n: nat, ok: bool)
      requires Valid() && name in files
      modifies this
      ensures Valid() && trail == old(trail) + [files] && ops == old(ops) + [Write(name)]
      ensures UsesUp(old(faults), faults) && (ok <==> FaultFree(old(faults), faults))
      ensures n <= |bytes| && (ok ==> n == |bytes|)
      ensures files == old(files)[name := old(files)[name] + bytes[..n]]
    {
      ok := Attempt(Write(name));
      n := if ok || cut > |bytes| then |bytes| else cut;
      Become(files[name := files[name] + bytes[..n]]);
    }

    method CreateTemp(name: string) returns (ok: bool)
      requires Valid()
      modifies this
      ensures Valid() && ops == old(ops) + [Op.CreateTemp(name)]
      ensures UsesUp(old(faults), faults)
      ensures ok <==> name !in old(files) && FaultFree(old(faults), faults)
      ensures files == (if ok then old(files)[name := []] else old(files))
      ensures trail == old(trail) + if ok then [files] else []
    {
      ok := Attempt(Op.CreateTemp(name));
      ok := ok && name !in files;
      if ok {
        Become(files[name := []]);
      } else {
        NothingAdded(trail);
      }
    }

    /** A rename takes effect as a whole or not at all. */
    method Rename(from: string, to: string) returns (ok: bool)
      requires Valid() && from in files
      modifies this
      ensures Valid() && ops == old(ops) + [Op.Rename(from, to)]
      ensures UsesUp(old(faults), faults) && (ok <==> FaultFree(old(faults), faults))
      ensures files == if ok then Renamed(old(files), from, to) else old(files)
      ensures trail == old(trail) + if ok then [files] else []
    {
      ok := Attempt(Op.Rename(from, to));
      if ok {
        Become(Renamed(files, from, to));
      } else {
        NothingAdded(trail);
      }
    }

    method Remove(name: string) returns (ok: bool)
      requires Valid()
      modifies this
      ensures Valid() && ops == old(ops) + [Op.Remove(name)]
      ensures UsesUp(old(faults), faults)
      ensures ok <==> name in old(files) && FaultFree(old(faults), faults)
      ensures files == if ok then old(files) - {name} else old(files)
      ensures trail == old(trail) + if ok then [files] else []
    {
      ok := Attempt(Op.Remove(name));
      ok := ok && name in files;
      if ok {
        Become(files - {name});
      } else {
        NothingAdded(trail);
      }
    }
  }

  function Renamed(files: Files, from: string, to: string): Files
    requires from in files
  {
    if from == to then files else files[to := files[from]] - {from}
  }

  /** The files while the transfer is under way: nothing but the temporary file is new, and
      it holds a beginning of what is to come. */
  predicate Partial(now: Files, base: Files, tmp: string, all: Content) {
    tmp in now && now[tmp] <= all && now == base[tmp := now[tmp]]
  }

  ghost predicate AllPartial(states: seq<Files>, base: Files, tmp: string, all: Content) {
    forall i :: 0 <= i < |states| ==> Partial(states[i], base, tmp, all)
  }

  /** Nothing but writes to the temporary file has been attempted. */
  predicate OnlyWrites(ops: seq<Op>, tmp: string) {
    forall i :: 0 <= i < |ops| ==> ops[i] == Write(tmp)
  }

  /** From one moment of the transfer to a later one. */
  ghost predicate Onward(earlier: Moment, later: Moment, base: Files, tmp: string, all: Content) {
    && Extends(earlier.trail, later.trail) && AllPartial(later.trail[|earlier.trail|..], base, tmp, all)
    && Extends(earlier.ops, later.ops) && OnlyWrites(later.ops[|earlier.ops|..], tmp)
    && UsesUp(earlier.faults, later.faults)
  }

  datatype Moment = Moment(trail: seq<Files>, ops: seq<Op>, faults: seq<bool>)

  lemma OnwardOn(a: Moment, b: Moment, c: Moment, base: Files, tmp: string, all: Content)
    requires Onward(a, b, base, tmp, all) && Onward(b, c, base, tmp, all)
    ensures Onward(a, c, base, tmp, all)
    ensures FaultFree(a.faults, c.faults) <==> FaultFree(a.faults, b.faults) && FaultFree(b.faults, c.faults)
  {
    FaultFreeOn(a.faults, b.faults, c.faults);
    ExtendsOn(a.trail, b.trail, c.trail);
    ExtendsOn(a.ops, b.ops, c.ops);
  }

  lemma ExtendsOn<T>(a: seq<T>, b: seq<T>, c: seq<T>)
    requires Extends(a, b) && Extends(b, c)
    ensures Extends(a, c) && c[|a|..] == b[|a|..] + c[|b|..]
  {
    assert c == b + c[|b|..];
    assert b == a + b[|a|..];
  }

  lemma OnwardSame(m: Moment, base: Files, tmp: string, all: Content)
    ensures Onward(m, m, base, tmp, all) && FaultFree(m.faults, m.faults)
  {
  }

  lemma OnwardOne(m: Moment, now: Files, faults: seq<bool>, base: Files, tmp: string, all: Content)
    requires Partial(now, base, tmp, all) && UsesUp(m.faults, faults)
    ensures Onward(m, Moment(m.trail + [now], m.ops + [Write(tmp)], faults), base, tmp, all)
  {
    assert (m.trail + [now])[|m.trail|..] == [now];
    assert (m.ops + [Write(tmp)])[|m.ops|..] == [Write(tmp)];
  }

  /** `bufio.Writer` on the temporary file. */
  class BufferedWriter {
    const disk: Disk
    const tmp: string
    const size: nat
    var buffer: Content
    var broken: bool

    /** What the file and the buffer hold together. */
    ghost function Total(): Content
      requires tmp in disk.files
      reads this, disk
    {
      disk.files[tmp] + buffer
    }

    ghost function Now(): Moment
      reads disk
    {
      Moment(disk.trail, disk.ops, disk.faults)
    }

    ghost predicate Valid(base: Files)
      reads this, disk
    {
      size > 0 && |buffer| <= size && disk.Valid() && tmp in disk.files
      && disk.files == base[tmp := disk.files[tmp]]
    }

    constructor (disk: Disk, tmp: string, size: nat)
      ensures this.disk == disk && this.tmp == tmp && this.size == size && buffer == [] && !broken
    {
      this.disk, this.tmp, this.size, buffer, broken := disk, tmp, size, [], false;
    }

    /** A write past the buffer; `bytes` are the next ones of the file. */
    method Direct(bytes: Content, ghost base: Files, ghost all: Content) returns (n: nat)
      requires Valid(base) && !broken && disk.files[tmp] + bytes <= all
      modifies this`broken, disk
      ensures Valid(base) && Onward(old(Now()), Now(), base, tmp, all)
      ensures n <= |bytes| && disk.files[tmp] == old(disk.files[tmp]) + bytes[..n]
      ensures !broken <==> FaultFree(old(disk.faults), disk.faults)
      ensures !broken ==> n == |bytes|
    {
      ghost var was := Now();
      var ok;
      n, ok := disk.Append(tmp, bytes);
      broken := !ok;
      assert bytes == bytes[..n] + bytes[n..];
      OnwardOne(was, disk.files, disk.faults, base, tmp, all);
    }

    method Flush(ghost base: Files, ghost all: Content) returns (ok: bool)
      requires Valid(base) && Total() <= all
      modifies this, disk
      ensures Valid(base) && Onward(old(Now()), Now(), base, tmp, all)
      ensures Total() == old(Total())
      ensures ok <==> !broken
      ensures !broken <==> !old(broken) && FaultFree(old(disk.faults), disk.faults)
      ensures ok ==> buffer == []
    {
      if broken || buffer == [] {
        OnwardSame(Now(), base, tmp, all);
        return !broken;
      }
      ghost var file, held := disk.files[tmp], buffer;
      var n := Direct(buffer, base, all);
      buffer := buffer[n..];
      assert held == held[..n] + held[n..];
      Assoc(file, held[..n], held[n..]);
      ok := !broken;
    }

    /** One round of the loop in `Write`: past an empty buffer, or filling and flushing it. */
    method Spill(rest: Content, ghost base: Files, ghost all: Content) returns (n: nat)
      requires Valid(base) && !broken && |rest| > size - |buffer| && Total() + rest <= all
      modifies this, disk
      ensures Valid(base) && Onward(old(Now()), Now(), base, tmp, all)
      ensures n <= |rest| && Total() == old(Total()) + rest[..n]
      ensures !broken <==> FaultFree(old(disk.faults), disk.faults)
      ensures !broken ==> |buffer| + (|rest| - n) < old(|buffer|) + |rest|
      ensures |buffer| + (|rest| - n) <= old(|buffer|) + |rest|
    {
      if buffer == [] {
        NothingAdded(disk.files[tmp]);
        n := Direct(rest, base, all);
        NothingAdded(disk.files[tmp]);
      } else {
        n := size - |buffer|;
        Assoc(disk.files[tmp], buffer, rest[..n]);
        Rejoin(Total(), rest, n);
        buffer := buffer + rest[..n];
        var _ := Flush(base, all);
      }
    }

    /** Every byte goes on behind those before it: first into the file, then the buffer. */
    method Write(p: Content, ghost base: Files, ghost all: Content) returns (ok: bool)
      requires Valid(base) && Total() + p <= all
      modifies this, disk
      ensures Valid(base) && Onward(old(Now()), Now(), base, tmp, all)
      ensures ok <==> !broken
      ensures !broken <==> !old(broken) && FaultFree(old(disk.faults), disk.faults)
      ensures ok ==> Total() == old(Total()) + p
      ensures Total() <= all
    {
      ghost var was, sum := Now(), Total() + p;
      var rest := p;
      OnwardSame(was, base, tmp, all);
      while |rest| > size - |buffer| && !broken
        invariant Valid(base) && Onward(was, Now(), base, tmp, all)
        invariant Total() + rest == sum
        invariant !broken <==> !old(broken) && FaultFree(was.faults, disk.faults)
        decreases !broken, |rest| + |buffer|
      {
        ghost var mid, total := Now(), Total();
        var n := Spill(rest, base, all);
        OnwardOn(was, mid, Now(), base, tmp, all);
        Rejoin(total, rest, n);
        rest := rest[n..];
      }
      PrefixOf(Total(), rest, all);
      if broken {
        return false;
      }
      Assoc(disk.files[tmp], buffer, rest);
      buffer := buffer + rest;
      ok := true;
    }
  }

  lemma Rejoin(a: Content, b: Content, n: nat)
    requires n <= |b|
    ensures a + b[..n] + b[n..] == a + b && a + b[..n] <= a + b
  {
    assert b == b[..n] + b[n..];
  }

  lemma PrefixOf(a: Content, b: Content, all: Content)
    requires a + b <= all
    ensures a <= all
  {
  }

  // ---- the transfer ----

  datatype Error =
    | ContextError
    | RecvError
    | WriteError
    | MkdirError
    | CreateError
    | RetrieveError
    | FlushError
    | SyncError
    | CloseError
    | RenameError
    | RemoveError

  /** What a stream's end means to the transfer. */
  function EndError(end: StreamEnd): Option<Error> {
    match end
    case Complete => None
    case Cancelled => Some(ContextError)
    case Broken => Some(RecvError)
  }

  function ReportsIf(progress: bool, chunks: seq<Content>): seq<nat> {
    if progress then Reports(chunks) else []
  }

  lemma ReportsGrow(progress: bool, chunks: seq<Content>, chunk: Content)
    ensures ReportsIf(progress, chunks + [chunk]) ==
              ReportsIf(progress, chunks) + if progress && chunk != [] then [|chunk|] else []
    ensures Concat(chunks + [chunk]) == Concat(chunks) + chunk
  {
    Appended(chunks, chunk);
  }

  /** One chunk: an empty one is passed over, any other is written and then reported. */
  method SendChunk(chunk: Content, w: BufferedWriter, progress: bool,
                   ghost base: Files, ghost all: Content, ghost was: Moment)
    returns (ok: bool, report: seq<nat>)
    requires w.Valid(base) && !w.broken && w.Total() + chunk <= all
    requires Onward(was, w.Now(), base, w.tmp, all) && FaultFree(was.faults, w.disk.faults)
    modifies w, w.disk
    ensures w.Valid(base) && Onward(was, w.Now(), base, w.tmp, all)
    ensures ok <==> !w.broken
    ensures ok <==> FaultFree(was.faults, w.disk.faults)
    ensures ok ==> w.Total() == old(w.Total()) + chunk
    ensures ok ==> report == if progress && chunk != [] then [|chunk|] else []
    ensures w.Total() <= all
  {
    ok, report := true, [];
    if |chunk| == 0 {
      NothingAdded(w.Total());
    } else {
      ghost var mid := w.Now();
      ok := w.Write(chunk, base, all);
      OnwardOn(was, mid, w.Now(), base, w.tmp, all);
      if ok && progress {
        report := [|chunk|];
      }
    }
  }

  /** `sendStreamToWriter` into an empty writer. `accepted` are the chunks that were written
      in full: all of those delivered, unless a write failed. */
  method SendStream(answers: seq<Answer>, w: BufferedWriter, progress: bool, ghost base: Files)
    returns (err: Option<Error>, reports: seq<nat>, ghost accepted: seq<Content>)
    requires w.Valid(base) && !w.broken && w.Total() == []
    modifies w, w.disk
    ensures w.Valid(base) && Onward(old(w.Now()), w.Now(), base, w.tmp, Concat(Delivered(answers)))
    ensures Extends(accepted, Delivered(answers)) && reports == ReportsIf(progress, accepted)
    ensures err == if w.broken then Some(WriteError) else EndError(EndOf(answers))
    ensures !w.broken <==> FaultFree(old(w.disk.faults), w.disk.faults)
    ensures !w.broken ==> accepted == Delivered(answers) && w.Total() == Concat(accepted)
    ensures w.Total() <= Concat(Delivered(answers))
  {
    ghost var was, all := w.Now(), Concat(Delivered(answers));
    reports, accepted := [], [];
    ReadNone(answers);
    OnwardSame(was, base, w.tmp, all);
    var i := 0;
    while i < |answers|
      invariant 0 <= i <= |answers|
      invariant ReadTo(answers, i, accepted)
      invariant w.Valid(base) && Onward(was, w.Now(), base, w.tmp, all)
      invariant !w.broken && FaultFree(was.faults, w.disk.faults)
      invariant w.Total() == Concat(accepted) && reports == ReportsIf(progress, accepted)
    {
      var answer := answers[i];
      if Final(answer) {
        ReadAll(answers, i, accepted);
        err := if answer.received.Eof? then None else if answer.cancelled then Some(ContextError) else Some(RecvError);
        return;
      }
      var chunk := answer.received.content;
      ReadOn(answers, i, accepted);
      ReportsGrow(progress, accepted, chunk);
      var ok, report := SendChunk(chunk, w, progress, base, all, was);
      if !ok {
        err := Some(WriteError);
        return;
      }
      reports := reports + report;
      accepted := accepted + [chunk];
      i := i + 1;
    }
    ReadAll(answers, i, accepted);
    err := Some(RecvError);
  }

  /** What the files may look like at any moment: as before, with an unfinished temporary
      file, or with the complete content in place. */
  ghost predicate Stage(now: Files, base: Files, tmp: string, local: string, answers: seq<Answer>) {
    || now == base
    || Partial(now, base, tmp, Concat(Delivered(answers)))
    || (EndOf(answers).Complete? && now == base[local := Concat(Delivered(answers))])
  }

  ghost predicate AllStages(states: seq<Files>, base: Files, tmp: string, local: string, answers: seq<Answer>) {
    forall i :: 0 <= i < |states| ==> Stage(states[i], base, tmp, local, answers)
  }

  lemma StagesGrow(a: seq<Files>, b: seq<Files>, c: seq<Files>,
                   base: Files, tmp: string, local: string, answers: seq<Answer>)
    requires Extends(a, b) && AllStages(b[|a|..], base, tmp, local, answers)
    requires Extends(b, c) && AllStages(c[|b|..], base, tmp, local, answers)
    ensures Extends(a, c) && AllStages(c[|a|..], base, tmp, local, answers)
  {
    ExtendsOn(a, b, c);
  }

  lemma OneStage(a: seq<Files>, now: Files, base: Files, tmp: string, local: string, answers: seq<Answer>)
    requires Stage(now, base, tmp, local, answers)
    ensures Extends(a, a + [now]) && AllStages((a + [now])[|a|..], base, tmp, local, answers)
    ensures Extends(a, a) && AllStages(a[|a|..], base, tmp, local, answers)
  {
    assert (a + [now])[|a|..] == [now];
  }

  /** What is still done after the last write. */
  function Closing(tmp: string, local: string): seq<Op> {
    [Sync(tmp), Close(tmp), Op.Rename(tmp, local)]
  }

  /** The error of a closing step that fails. */
  function StepError(step: Op): Error {
    if step.Sync? then SyncError else if step.Close? then CloseError else RenameError
  }

  /** After the last write the error is that of the last step attempted. */
  predicate LastStepFailed(err: Option<Error>, last: seq<Op>) {
    err.Some? && last != [] ==> err == Some(StepError(last[|last| - 1]))
  }

  /** The size given to `bufio.NewWriterSize`. */
  const BufferSize: nat := 256 * 1024

  lemma OnlyMore<T>(a: seq<T>, b: seq<T>, c: seq<T>)
    requires Extends(b, c) && b == a
    ensures c == a + c[|b|..]
  {
  }

  /** The stream, and the last flush. */
  method Pump(disk: Disk, tmp: string, answers: seq<Answer>, progress: bool, ghost base: Files)
    returns (err: Option<Error>, reports: seq<nat>, ghost accepted: seq<Content>)
    requires disk.Valid() && disk.files == base[tmp := []]
    modifies disk
    ensures disk.Valid() && Onward(old(disk.Now()), disk.Now(), base, tmp, Concat(Delivered(answers)))
    ensures Extends(accepted, Delivered(answers)) && reports == ReportsIf(progress, accepted)
    ensures err.None? <==> EndOf(answers).Complete? && FaultFree(old(disk.faults), disk.faults)
    ensures err.None? ==> accepted == Delivered(answers) && disk.files[tmp] == Concat(accepted)
    ensures FaultFree(old(disk.faults), disk.faults) ==> err == EndError(EndOf(answers))
    ensures tmp in disk.files && disk.files == base[tmp := disk.files[tmp]]
  {
    var w := new BufferedWriter(disk, tmp, BufferSize);
    ghost var m1 := disk.Now();
    NothingAdded(disk.files[tmp]);
    err, reports, accepted := SendStream(answers, w, progress, base);
    if err.Some? {
      return;
    }
    ghost var m2 := disk.Now();
    var ok := w.Flush(base, Concat(Delivered(answers)));
    OnwardOn(m1, m2, disk.Now(), base, tmp, Concat(Delivered(answers)));
    if !ok {
      err := Some(FlushError);
      return;
    }
    NothingAdded(disk.files[tmp]);
  }

  /** From the open temporary file to the last write, `writes` being those attempted. */
  method Gather(disk: Disk, tmp: string, answers: seq<Answer>, progress: bool, ghost base: Files)
    returns (err: Option<Error>, reports: seq<nat>, ghost accepted: seq<Content>, ghost writes: seq<Op>)
    requires disk.Valid() && disk.files == base[tmp := []]
    modifies disk
    ensures disk.Valid() && UsesUp(old(disk.faults), disk.faults)
    ensures Extends(old(disk.trail), disk.trail)
    ensures AllPartial(disk.trail[|old(disk.trail)|..], base, tmp, Concat(Delivered(answers)))
    ensures disk.ops == old(disk.ops) + [Retrieve] + writes && OnlyWrites(writes, tmp)
    ensures Extends(accepted, Delivered(answers)) && reports == ReportsIf(progress, accepted)
    ensures err.None? <==> EndOf(answers).Complete? && FaultFree(old(disk.faults), disk.faults)
    ensures err.None? ==> accepted == Delivered(answers) && disk.files[tmp] == Concat(accepted)
    ensures FaultFree(old(disk.faults), disk.faults) ==> err == EndError(EndOf(answers))
    ensures tmp in disk.files && disk.files == base[tmp := disk.files[tmp]]
  {
    ghost var first, ops := disk.faults, disk.ops;
    reports, accepted, writes := [], [], [];
    var ok := disk.Attempt(Retrieve);
    ghost var m1 := disk.Now();
    if !ok {
      NothingAdded(disk.ops);
      err := Some(RetrieveError);
      return;
    }
    err, reports, accepted := Pump(disk, tmp, answers, progress, base);
    OnlyMore(m1.ops, m1.ops, disk.ops);
    writes := disk.ops[|m1.ops|..];
    FaultFreeOn(first, m1.faults, disk.faults);
  }

  /** Sync, close and rename. */
  method Install(disk: Disk, tmp: string, local: string)
    returns (err: Option<Error>, closing: bool, renamed: bool, ghost last: seq<Op>)
    requires disk.Valid() && tmp in disk.files
    modifies disk
    ensures disk.Valid() && UsesUp(old(disk.faults), disk.faults)
    ensures disk.ops == old(disk.ops) + last && Extends(last, Closing(tmp, local))
    ensures closing <==> |last| >= 2
    ensures renamed <==> err.None?
    ensures renamed <==> FaultFree(old(disk.faults), disk.faults)
    ensures renamed ==> last == Closing(tmp, local)
    ensures last != [] && LastStepFailed(err, last)
    ensures disk.files == if renamed then Renamed(old(disk.files), tmp, local) else old(disk.files)
    ensures disk.trail == old(disk.trail) + if renamed then [disk.files] else []
  {
    ghost var f1, ops := disk.faults, disk.ops;
    err, closing, renamed, last := None, false, false, [Sync(tmp)];
    NothingAdded(disk.trail);
    var ok := disk.Attempt(Sync(tmp));
    ghost var f2 := disk.faults;
    if !ok {
      err := Some(SyncError);
      return;
    }
    closing := true;
    ok := disk.Attempt(Close(tmp));
    ghost var f3 := disk.faults;
    FaultFreeOn(f1, f2, f3);
    Assoc(ops, [Sync(tmp)], [Close(tmp)]);
    last := [Sync(tmp)] + [Close(tmp)];
    if !ok {
      err := Some(CloseError);
      return;
    }
    ok := disk.Rename(tmp, local);
    FaultFreeOn(f1, f3, disk.faults);
    Assoc(ops, last, [Op.Rename(tmp, local)]);
    last := last + [Op.Rename(tmp, local)];
    if !ok {
      err := Some(RenameError);
      return;
    }
    renamed := true;
  }

  /** From the open temporary file to the rename. `writes` are the attempted writes and
      `last` what was attempted after them. */
  method Fill(disk: Disk, tmp: string, local: string, answers: seq<Answer>, progress: bool, ghost base: Files)
    returns (err: Option<Error>, reports: seq<nat>, closing: bool, renamed: bool,
             ghost accepted: seq<Content>, ghost writes: seq<Op>, ghost last: seq<Op>)
    requires disk.Valid() && tmp !in base && disk.files == base[tmp := []]
    modifies disk
    ensures disk.Valid() && UsesUp(old(disk.faults), disk.faults)
    ensures Extends(old(disk.trail), disk.trail)
    ensures AllStages(disk.trail[|old(disk.trail)|..], base, tmp, local, answers)
    ensures disk.ops == old(disk.ops) + [Retrieve] + writes + last
    ensures OnlyWrites(writes, tmp) && Extends(last, Closing(tmp, local))
    ensures closing <==> |last| >= 2
    ensures Extends(accepted, Delivered(answers)) && reports == ReportsIf(progress, accepted)
    ensures renamed <==> err.None?
    ensures renamed <==> EndOf(answers).Complete? && FaultFree(old(disk.faults), disk.faults)
    ensures renamed ==> last == Closing(tmp, local) && accepted == Delivered(answers)
    ensures LastStepFailed(err, last)
    ensures FaultFree(old(disk.faults), disk.faults) ==> err == EndError(EndOf(answers))
    ensures if renamed then disk.files == base[local := Concat(Delivered(answers))]
            else tmp in disk.files && disk.files == base[tmp := disk.files[tmp]]
  {
    ghost var f0, t0 := disk.faults, disk.trail;
    closing, renamed, last := false, false, [];
    err, reports, accepted, writes := Gather(disk, tmp, answers, progress, base);
    ghost var f1, t1 := disk.faults, disk.trail;
    if err.Some? {
      NothingAdded(disk.ops);
      return;
    }
    err, closing, renamed, last := Install(disk, tmp, local);
    FaultFreeOn(f0, f1, disk.faults);
    if renamed {
      RenamedIsFinal(base, tmp, local, Concat(accepted));
      OneStage(t1, disk.files, base, tmp, local, answers);
      StagesGrow(t0, t1, disk.trail, base, tmp, local, answers);
    }
  }

  lemma RenamedIsFinal(base: Files, tmp: string, local: string, all: Content)
    requires tmp !in base
    ensures Renamed(base[tmp := all], tmp, local) == base[local := all]
  {
  }

  /** The deferred clean-up of a failed transfer. */
  function Cleanup(tmp: string, closing: bool): seq<Op> {
    (if closing then [] else [Close(tmp)]) + [Op.Remove(tmp)]
  }

  /** The deferred function: close and remove unless that was called off. An error it meets is
      reported only when there is none yet. */
  method Defer(disk: Disk, tmp: string, closing: bool, renamed: bool, failed: Option<Error>)
    returns (err: Option<Error>)
    requires disk.Valid() && (!renamed ==> tmp in disk.files)
    requires renamed <==> failed.None?
    requires renamed ==> closing
    modifies disk
    ensures disk.Valid() && UsesUp(old(disk.faults), disk.faults)
    ensures err == failed
    ensures disk.ops == old(disk.ops) + if renamed then [] else Cleanup(tmp, closing)
    ensures disk.files == old(disk.files) || (!renamed && disk.files == old(disk.files) - {tmp})
    ensures !renamed && FaultFree(old(disk.faults), disk.faults) ==> tmp !in disk.files
    ensures renamed ==> disk.faults == old(disk.faults)
    ensures disk.trail == old(disk.trail) + if disk.files == old(disk.files) then [] else [disk.files]
  {
    err := failed;
    ghost var f0, ops := disk.faults, disk.ops;
    NothingAdded(ops);
    NothingAdded(disk.trail);
    if !closing {
      var ok := disk.Attempt(Close(tmp));
      if !ok && err.None? {
        err := Some(CloseError);
      }
    }
    ghost var f1 := disk.faults;
    if !renamed {
      Assoc(ops, if closing then [] else [Close(tmp)], [Op.Remove(tmp)]);
      var ok := disk.Remove(tmp);
      FaultFreeOn(f0, f1, disk.faults);
      if !ok && err.None? {
        err := Some(RemoveError);
      }
    }
  }

  lemma TakenAway(base: Files, tmp: string, now: Files)
    requires tmp !in base && tmp in now && now == base[tmp := now[tmp]]
    ensures now - {tmp} == base
  {
  }

  /** From the creation of the temporary file on, with the deferred function. */
  method Transfer(disk: Disk, local: string, tmp: string, answers: seq<Answer>, progress: bool, ghost base: Files)
    returns (err: Option<Error>, reports: seq<nat>,
             ghost accepted: seq<Content>, ghost writes: seq<Op>, ghost last: seq<Op>)
    requires disk.Valid() && tmp !in base && disk.files == base[tmp := []]
    modifies disk
    ensures disk.Valid() && UsesUp(old(disk.faults), disk.faults)
    ensures err.None? <==> EndOf(answers).Complete? && FaultFree(old(disk.faults), disk.faults)
    ensures err.None? ==> disk.files == base[local := Concat(Delivered(answers))]
    ensures err.Some? ==> disk.files == base
                          || (disk.files - {tmp} == base && !FaultFree(old(disk.faults), disk.faults))
    ensures Extends(old(disk.trail), disk.trail)
    ensures AllStages(disk.trail[|old(disk.trail)|..], base, tmp, local, answers)
    ensures Shutdown(disk.ops, old(disk.ops), tmp, local, err.None?, writes, last)
    ensures Extends(accepted, Delivered(answers)) && reports == ReportsIf(progress, accepted)
    ensures err.None? ==> accepted == Delivered(answers)
    ensures LastStepFailed(err, last)
    ensures FaultFree(old(disk.faults), disk.faults) ==> err == EndError(EndOf(answers))
  {
    ghost var f0, t0 := disk.faults, disk.trail;
    var closing, renamed;
    err, reports, closing, renamed, accepted, writes, last := Fill(disk, tmp, local, answers, progress, base);
    ghost var f1, t1, left := disk.faults, disk.trail, disk.files;
    err := Defer(disk, tmp, closing, renamed, err);
    FaultFreeOn(f0, f1, disk.faults);
    if !renamed {
      TakenAway(base, tmp, left);
    }
    OneStage(t1, disk.files, base, tmp, local, answers);
    StagesGrow(t0, t1, disk.trail, base, tmp, local, answers);
  }

  /** What is attempted once the temporary file exists: the request, the writes, then sync,
      close and rename as far as they go. After a failure the file is closed if it is not yet
      closed, and removed. */
  predicate Shutdown(ops: seq<Op>, before: seq<Op>, tmp: string, local: string, ok: bool, writes: seq<Op>, last: seq<Op>) {
    && OnlyWrites(writes, tmp) && Extends(last, Closing(tmp, local))
    && (ok ==> last == Closing(tmp, local))
    && ops == before + [Retrieve] + writes + last + if ok then [] else Cleanup(tmp, |last| >= 2)
  }

  /** How a transfer can end behind its writes: it is closed once and renamed only behind its
      sync and its close, and its removal is attempted, as the last thing, exactly if the
      transfer fails. */
  lemma ClosedOnce(ops: seq<Op>, before: seq<Op>, tmp: string, local: string, ok: bool,
                   writes: seq<Op>, last: seq<Op>, end: seq<Op>)
    requires Shutdown(ops, before, tmp, local, ok, writes, last)
    requires 1 + |before| + |writes| <= |ops| && end == ops[1 + |before| + |writes|..]
    ensures ok ==> end == [Sync(tmp), Close(tmp), Op.Rename(tmp, local)]
    ensures !ok ==> || end == [Close(tmp), Op.Remove(tmp)]
                    || end == [Sync(tmp), Close(tmp), Op.Remove(tmp)]
                    || end == [Sync(tmp), Close(tmp), Op.Rename(tmp, local), Op.Remove(tmp)]
  {
    assert end == last + if ok then [] else Cleanup(tmp, |last| >= 2);
    assert last == Closing(tmp, local)[..|last|];
  }

  lemma Kept(t0: seq<Files>, state: Files, t3: seq<Files>)
    requires Extends(t0 + [state], t3)
    ensures state in t3[|t0|..]
  {
    assert t3[..|t0| + 1][|t0|] == state;
    assert t3[|t0|..][0] == state;
  }

  /** The destination at some moment: its old content, or the complete new one. */
  ghost predicate Intact(now: Files, base: Files, local: string, answers: seq<Answer>) {
    || (local !in base && local !in now)
    || (local in base && local in now && now[local] == base[local])
    || (local in now && EndOf(answers).Complete? && now[local] == Concat(Delivered(answers)))
  }

  ghost predicate AlwaysIntact(states: seq<Files>, base: Files, local: string, answers: seq<Answer>) {
    forall i :: 0 <= i < |states| ==> Intact(states[i], base, local, answers)
  }

  /** The destination stays intact as long as the temporary file has a name of its own; when
      the names coincide, only if the complete content is empty. */
  lemma StageIntact(now: Files, base: Files, tmp: string, local: string, answers: seq<Answer>)
    requires tmp !in base && Stage(now, base, tmp, local, answers)
    requires tmp != local || (EndOf(answers).Complete? && Concat(Delivered(answers)) == [])
    ensures Intact(now, base, local, answers)
  {
  }

  lemma TrailIntact(states: seq<Files>, base: Files, tmp: string, local: string, answers: seq<Answer>)
    requires tmp !in base && AllStages(states, base, tmp, local, answers) && base[tmp := []] in states
    ensures AlwaysIntact(states, base, local, answers)
            <==> tmp != local || (EndOf(answers).Complete? && Concat(Delivered(answers)) == [])
  {
    if tmp != local || (EndOf(answers).Complete? && Concat(Delivered(answers)) == []) {
      forall i | 0 <= i < |states| ensures Intact(states[i], base, local, answers) {
        StageIntact(states[i], base, tmp, local, answers);
      }
    } else {
      var i :| 0 <= i < |states| && states[i] == base[tmp := []];
      assert !Intact(states[i], base, local, answers);
    }
  }

  /** What is attempted up to the open temporary file. */
  function Opening(err: Option<Error>, tmp: string): seq<Op> {
    if err == Some(ContextError) then []
    else if err == Some(MkdirError) then [MkdirAll]
    else [MkdirAll, Op.CreateTemp(tmp)]
  }

  /** Up to the open temporary file. */
  method Open(disk: Disk, tmp: string, cancelled: bool) returns (err: Option<Error>)
    requires disk.Valid()
    modifies disk
    ensures disk.Valid() && UsesUp(old(disk.faults), disk.faults)
    ensures err.None? <==> !cancelled && tmp !in old(disk.files) && FaultFree(old(disk.faults), disk.faults)
    ensures disk.files == if err.None? then old(disk.files)[tmp := []] else old(disk.files)
    ensures disk.trail == if err.None? then old(disk.trail) + [disk.files] else old(disk.trail)
    ensures disk.ops == old(disk.ops) + Opening(err, tmp)
    ensures err.Some? ==> if cancelled then err == Some(ContextError) else err.value in {MkdirError, CreateError}
  {
    ghost var f0, ops := disk.faults, disk.ops;
    NothingAdded(disk.trail);
    NothingAdded(ops);
    if cancelled {
      return Some(ContextError);
    }
    var ok := disk.Attempt(MkdirAll);
    if !ok {
      return Some(MkdirError);
    }
    ghost var f1 := disk.faults;
    ok := disk.CreateTemp(tmp);
    FaultFreeOn(f0, f1, disk.faults);
    Assoc(ops, [MkdirAll], [Op.CreateTemp(tmp)]);
    if !ok {
      return Some(CreateError);
    }
    err := None;
  }

  /** `created` says that the temporary file came into being; `writes` and `last` are the
      attempts between that and the clean-up. */
  method ReceiveFile(disk: Disk, local: string, tmp: string, answers: seq<Answer>, progress: bool, cancelled: bool)
    returns (err: Option<Error>, reports: seq<nat>, ghost created: bool,
             ghost accepted: seq<Content>, ghost writes: seq<Op>, ghost last: seq<Op>)
    requires disk.Valid()
    modifies disk
    ensures disk.Valid() && UsesUp(old(disk.faults), disk.faults)
    // success: exactly when nothing went wrong, and then the content is in place
    ensures err.None? <==> !cancelled && tmp !in old(disk.files) && EndOf(answers).Complete?
                           && FaultFree(old(disk.faults), disk.faults)
    ensures err.None? ==> disk.files == old(disk.files)[local := Concat(Delivered(answers))]
    // failure: at most the temporary file is left over, and only after a fault
    ensures err.Some? ==> disk.files == old(disk.files)
                          || (created && disk.files - {tmp} == old(disk.files)
                              && !FaultFree(old(disk.faults), disk.faults))
    // every state on the way
    ensures Extends(old(disk.trail), disk.trail)
    ensures AllStages(disk.trail[|old(disk.trail)|..], old(disk.files), tmp, local, answers)
    ensures created ==> tmp !in old(disk.files) && old(disk.files)[tmp := []] in disk.trail[|old(disk.trail)|..]
    ensures !created ==> disk.trail == old(disk.trail)
    // the destination, at every moment of the transfer
    ensures AlwaysIntact(disk.trail[|old(disk.trail)|..], old(disk.files), local, answers)
            <==> !created || tmp != local || (EndOf(answers).Complete? && Concat(Delivered(answers)) == [])
    // the operations attempted
    ensures created ==>
              Shutdown(disk.ops, old(disk.ops) + [MkdirAll, Op.CreateTemp(tmp)], tmp, local, err.None?, writes, last)
    ensures !created ==> err.Some? && disk.ops == old(disk.ops) + Opening(err, tmp)
    // the error
    ensures cancelled ==> err == Some(ContextError) && !created
    ensures !cancelled && !created ==> err == Some(MkdirError) || err == Some(CreateError)
    ensures created ==> LastStepFailed(err, last)
    ensures created && FaultFree(old(disk.faults), disk.faults) ==> err == EndError(EndOf(answers))
    // progress
    ensures Extends(accepted, Delivered(answers)) && reports == ReportsIf(progress, accepted)
    ensures err.None? ==> created && accepted == Delivered(answers)
  {
    reports, created, accepted, writes, last := [], false, [], [], [];
    ghost var base, f0, t0, ops := disk.files, disk.faults, disk.trail, disk.ops;
    err := Open(disk, tmp, cancelled);
    ghost var f1, t1 := disk.faults, disk.trail;
    OneStage(t0, base[tmp := []], base, tmp, local, answers);
    if err.Some? {
      return;
    }
    created := true;
    err, reports, accepted, writes, last := Transfer(disk, local, tmp, answers, progress, base);
    FaultFreeOn(f0, f1, disk.faults);
    StagesGrow(t0, t1, disk.trail, base, tmp, local, answers);
    Kept(t0, base[tmp := []], disk.trail);
    TrailIntact(disk.trail[|t0|..], base, tmp, local, answers);
  }
}
