/** The input path: `Session.write_input` and `_flush_write`, a bounded buffer in front of a
    non-blocking PTY master that may take any number of bytes, block or fail. */
module PtyInput {
  import opened Common
  import Utf8

  const WRITE_BUFFER_LIMIT: nat := 1024 * 1024

  /** One `os.write`: it takes at least one byte (`extra` more if the buffer has them),
      raises BlockingIOError, or raises another OSError. */
  datatype WriteResult = Wrote(extra: nat) | Blocks | Fails

  /** What happened to the input, for the specification only. */
  datatype Event =
    | Accepted(message: string)   // taken whole into the buffer
    | Dropped                     // refused whole
    | Emptied                     // a flush left the buffer empty
    | Discarded                   // a failed write or the cleanup threw the rest away

  datatype State = State(
    alive: bool,
    fdOpen: bool,
    buffer: seq<byte>,
    writerRegistered: bool,
    inputDropped: bool,
    sent: seq<byte>,         // trace: bytes the PTY took since the last discard
    log: seq<Event>)         // trace

  function Spawned(): State {
    State(true, true, [], false, false, [], [])
  }

  // ---- Reference meaning of the trace ----------------------------------------------------

  /** The text accepted since the last discard. */
  function AcceptedText(log: seq<Event>): string {
    if log == [] then ""
    else
      match log[|log| - 1]
      case Accepted(message) => AcceptedText(log[..|log| - 1]) + message
      case Discarded => ""
      case _ => AcceptedText(log[..|log| - 1])
  }

  /** Whether something was dropped after the buffer was last seen empty. */
  predicate DroppedSinceEmpty(log: seq<Event>) {
    log != [] &&
    match log[|log| - 1]
    case Dropped => true
    case Emptied => false
    case Discarded => false
    case Accepted(_) => DroppedSinceEmpty(log[..|log| - 1])
  }

  // ---- Specification of the operations ---------------------------------------------------

  /** Bytes taken and bytes left after writing until the buffer is empty, the PTY blocks or a
      write fails. */
  datatype Flushed = Flushed(taken: seq<byte>, left: seq<byte>, failed: bool)

  function Drain(buffer: seq<byte>, kernel: seq<WriteResult>): (r: Flushed)
    ensures !r.failed ==> r.taken + r.left == buffer
    ensures r.failed ==> r.left == []
    ensures |r.left| <= |buffer|
    decreases |kernel|
  {
    if buffer == [] || kernel == [] then Flushed([], buffer, false)
    else
      match kernel[0]
      case Blocks => Flushed([], buffer, false)
      case Fails => Flushed([], [], true)
      case Wrote(extra) =>
        var n := Min(extra + 1, |buffer|);
        var rest := Drain(buffer[n..], kernel[1..]);
        assert buffer == buffer[..n] + buffer[n..];
        Flushed(buffer[..n] + rest.taken, rest.left, rest.failed)
  }

  /** Having taken `taken` so far, finishing as `rest` amounts to `all`. */
  predicate Continues(all: Flushed, taken: seq<byte>, rest: Flushed) {
    all.taken == taken + rest.taken && all.left == rest.left && all.failed == rest.failed
  }

  lemma OneMoreWrite(all: Flushed, taken: seq<byte>, buffer: seq<byte>, kernel: seq<WriteResult>)
    requires buffer != [] && kernel != [] && kernel[0].Wrote?
    requires Continues(all, taken, Drain(buffer, kernel))
    ensures var n := Min(kernel[0].extra + 1, |buffer|);
            Continues(all, taken + buffer[..n], Drain(buffer[n..], kernel[1..]))
  {
  }

  /** Nothing more can be written: the buffer is empty, the PTY blocks or a write fails. */
  lemma NoMoreWrites(all: Flushed, taken: seq<byte>, buffer: seq<byte>, kernel: seq<WriteResult>)
    requires Continues(all, taken, Drain(buffer, kernel))
    requires buffer == [] || kernel == [] || !kernel[0].Wrote?
    ensures all.taken == taken
    ensures buffer != [] && kernel != [] && kernel[0].Fails? ==> all.failed && all.left == []
    ensures buffer == [] || kernel == [] || kernel[0].Blocks? ==> !all.failed && all.left == buffer
  {
    assert taken + [] == taken;
  }

  function AfterFlush(s: State, kernel: seq<WriteResult>): State {
    if !s.fdOpen then s
    else
      var f := Drain(s.buffer, kernel);
      s.(buffer := f.left,
         sent := if f.failed then [] else s.sent + f.taken,
         writerRegistered := f.left != [],
         inputDropped := s.inputDropped && f.left != [],
         log := s.log + (if f.failed then [Discarded] else []) + (if f.left == [] then [Emptied] else []))
  }

  predicate Fits(s: State, data: string) {
    |s.buffer| + |Utf8.Encode(data)| <= WRITE_BUFFER_LIMIT
  }

  /** The message has gone into the buffer and into the books, but not yet to the PTY. */
  function Taken(s: State, data: string): State {
    s.(buffer := s.buffer + Utf8.Encode(data), log := s.log + [Accepted(data)])
  }

  function AfterInput(s: State, data: string, kernel: seq<WriteResult>): State {
    if !(s.alive && s.fdOpen) then s
    else if !Fits(s, data) then s.(inputDropped := true, log := s.log + [Dropped])
    else
      AfterFlush(Taken(s, data), kernel)
  }

  /** `_cleanup_fd`; both of its callers have just cleared `alive`. */
  function AfterCleanup(s: State): State {
    if !s.fdOpen then s.(alive := false)
    else s.(alive := false, fdOpen := false, buffer := [], writerRegistered := false,
            inputDropped := false, sent := [], log := s.log + [Discarded])
  }

  // ---- Invariant ---------------------------------------------------------------------------

  ghost predicate Inv(s: State) {
    && s.sent + s.buffer == Utf8.Encode(AcceptedText(s.log))
    && |s.buffer| <= WRITE_BUFFER_LIMIT
    && (s.fdOpen ==> (s.writerRegistered <==> s.buffer != []))
    && (!s.fdOpen ==> !s.alive && !s.writerRegistered && s.buffer == [])
    && s.inputDropped == DroppedSinceEmpty(s.log)
  }

  lemma LogAppend(log: seq<Event>, e: Event)
    ensures AcceptedText(log + [e]) ==
            if e.Accepted? then AcceptedText(log) + e.message
            else if e.Discarded? then "" else AcceptedText(log)
    ensures DroppedSinceEmpty(log + [e]) <==> e.Dropped? || (e.Accepted? && DroppedSinceEmpty(log))
  {
    assert (log + [e])[..|log|] == log;
  }

  /** Flushing keeps the books, also right after a message went into the buffer. */
  lemma FlushKeepsInv(s: State, kernel: seq<WriteResult>)
    requires s.fdOpen
    requires s.sent + s.buffer == Utf8.Encode(AcceptedText(s.log)) && |s.buffer| <= WRITE_BUFFER_LIMIT
    requires s.inputDropped == DroppedSinceEmpty(s.log)
    ensures Inv(AfterFlush(s, kernel))
  {
    var f := Drain(s.buffer, kernel);
    assert s.sent + (f.taken + f.left) == (s.sent + f.taken) + f.left;
    var middle := s.log + if f.failed then [Discarded] else [];
    if f.failed {
      LogAppend(s.log, Discarded);
    } else {
      assert middle == s.log;
    }
    if f.left == [] {
      LogAppend(middle, Emptied);
    } else {
      assert middle + [] == middle;
    }
  }

  lemma TakenKeepsBooks(s: State, data: string)
    requires Inv(s) && Fits(s, data)
    ensures var t := Taken(s, data);
            && t.sent + t.buffer == Utf8.Encode(AcceptedText(t.log)) && |t.buffer| <= WRITE_BUFFER_LIMIT
            && t.inputDropped == DroppedSinceEmpty(t.log)
  {
    LogAppend(s.log, Accepted(data));
    Utf8.EncodeConcat(AcceptedText(s.log), data);
    Regroup(s.sent, s.buffer, Utf8.Encode(data));
  }

  lemma Regroup(a: seq<byte>, b: seq<byte>, c: seq<byte>)
    ensures a + (b + c) == (a + b) + c
  {
  }

  lemma InputKeepsInv(s: State, data: string, kernel: seq<WriteResult>)
    requires Inv(s)
    ensures Inv(AfterInput(s, data, kernel))
  {
    if s.alive && s.fdOpen {
      if Fits(s, data) {
        TakenKeepsBooks(s, data);
        FlushKeepsInv(Taken(s, data), kernel);
      } else {
        LogAppend(s.log, Dropped);
      }
    }
  }

  lemma CleanupKeepsInv(s: State)
    requires Inv(s)
    ensures Inv(AfterCleanup(s))
  {
    LogAppend(s.log, Discarded);
  }

  // ---- Runs --------------------------------------------------------------------------------

  datatype Step =
    | Message(data: string, kernel: seq<WriteResult>)   // the route calls write_input
    | Writable(kernel: seq<WriteResult>)                // the fd's writer callback
    | Cleanup

  predicate Enabled(s: State, step: Step) {
    step.Writable? ==> s.writerRegistered
  }

  function Next(s: State, step: Step): State {
    match step
    case Message(data, kernel) => AfterInput(s, data, kernel)
    case Writable(kernel) => AfterFlush(s, kernel)
    case Cleanup => AfterCleanup(s)
  }

  ghost predicate Run(s: State, steps: seq<Step>, t: State)
    decreases |steps|
  {
    if steps == [] then s == t
    else Enabled(s, steps[0]) && Run(Next(s, steps[0]), steps[1..], t)
  }

  lemma {:induction false} RunKeepsInv(s: State, steps: seq<Step>, t: State)
    requires Inv(s) && Run(s, steps, t)
    ensures Inv(t)
    decreases |steps|
  {
    if steps != [] {
      match steps[0] {
        case Message(data, kernel) => InputKeepsInv(s, data, kernel);
        case Writable(kernel) => FlushKeepsInv(s, kernel);
        case Cleanup => CleanupKeepsInv(s);
      }
      RunKeepsInv(Next(s, steps[0]), steps[1..], t);
    }
  }

  /** In every run, what the PTY took and what still waits are the UTF-8 of the accepted text,
      in order; when nothing waits, the PTY can decode exactly that text. The buffer stays
      within its limit and the fd's writer is registered exactly while bytes wait. */
  lemma InputFidelity(steps: seq<Step>, t: State)
    requires Run(Spawned(), steps, t)
    ensures t.sent + t.buffer == Utf8.Encode(AcceptedText(t.log))
    ensures t.buffer == [] ==> Utf8.Decode(t.sent) == Some(AcceptedText(t.log))
    ensures |t.buffer| <= WRITE_BUFFER_LIMIT
    ensures t.writerRegistered <==> t.fdOpen && t.buffer != []
  {
    RunKeepsInv(Spawned(), steps, t);
    Utf8.RoundTrip(AcceptedText(t.log));
    if t.buffer == [] {
      assert t.sent + t.buffer == t.sent;
    }
  }

  /** A drop flag is raised exactly once between two moments at which the buffer was empty:
      the flag `write_input` consults is the reference meaning of the trace, in every run. */
  lemma DropFlagIsHistory(steps: seq<Step>, t: State)
    requires Run(Spawned(), steps, t)
    ensures t.inputDropped <==> DroppedSinceEmpty(t.log)
  {
    RunKeepsInv(Spawned(), steps, t);
  }

  // ---- What each event does ------------------------------------------------------------------

  /** How many bytes the PTY would take before it blocks or fails. */
  function Offered(kernel: seq<WriteResult>): nat {
    if kernel == [] || !kernel[0].Wrote? then 0 else kernel[0].extra + 1 + Offered(kernel[1..])
  }

  /** Whether it fails, rather than blocks, once it takes no more. */
  predicate FailsThen(kernel: seq<WriteResult>) {
    kernel != [] && if kernel[0].Wrote? then FailsThen(kernel[1..]) else kernel[0].Fails?
  }

  /** Exactly as much is taken as is there and as the PTY will have. */
  lemma {:induction false} DrainExactly(buffer: seq<byte>, kernel: seq<WriteResult>)
    ensures var f := Drain(buffer, kernel);
            && (f.failed <==> Offered(kernel) < |buffer| && FailsThen(kernel))
            && (!f.failed ==> f.taken == buffer[..Min(|buffer|, Offered(kernel))]
                              && f.left == buffer[Min(|buffer|, Offered(kernel))..])
    decreases |kernel|
  {
    if buffer != [] && kernel != [] && kernel[0].Wrote? {
      var n := Min(kernel[0].extra + 1, |buffer|);
      DrainExactly(buffer[n..], kernel[1..]);
      assert buffer == buffer[..n] + buffer[n..];
    }
  }

  /** Flushing records what it did, and drops nothing. */
  lemma FlushLogs(s: State, kernel: seq<WriteResult>) returns (more: seq<Event>)
    ensures AfterFlush(s, kernel).log == s.log + more && Dropped !in more
  {
    if !s.fdOpen {
      more := [];
      assert s.log + [] == s.log;
    } else {
      var f := Drain(s.buffer, kernel);
      more := (if f.failed then [Discarded] else []) + (if f.left == [] then [Emptied] else []);
      assert AfterFlush(s, kernel).log == s.log + more;
    }
  }

  /** What the PTY has taken and what waits, after it was offered `bytes` on top of `sent`. */
  predicate WrittenOut(t: State, sent: seq<byte>, bytes: seq<byte>, kernel: seq<WriteResult>) {
    var n := Min(|bytes|, Offered(kernel));
    && (t.writerRegistered <==> t.buffer != [])
    && if Offered(kernel) < |bytes| && FailsThen(kernel) then t.buffer == [] && t.sent == []
       else t.sent == sent + bytes[..n] && t.buffer == bytes[n..]
  }

  lemma FlushEffect(s: State, kernel: seq<WriteResult>)
    requires s.fdOpen
    ensures var t := AfterFlush(s, kernel);
            && WrittenOut(t, s.sent, s.buffer, kernel) && t.alive == s.alive && t.fdOpen
            && (t.inputDropped <==> s.inputDropped && t.buffer != [])
  {
    DrainExactly(s.buffer, kernel);
  }

  /** A message is refused by a dead session, and dropped whole if it would overfill the buffer.
      Otherwise it is accepted whole, and the PTY is offered all that waits at once. */
  lemma MessageDecides(s: State, data: string, kernel: seq<WriteResult>)
    ensures var t := Next(s, Message(data, kernel));
            if !(s.alive && s.fdOpen) then t == s
            else if |s.buffer| + |Utf8.Encode(data)| > 1048576 then
              t == s.(inputDropped := true, log := s.log + [Dropped])
            else
              && s.log + [Accepted(data)] <= t.log && Dropped !in t.log[|s.log| + 1..]
              && WrittenOut(t, s.sent, s.buffer + Utf8.Encode(data), kernel)
              && (t.inputDropped <==> s.inputDropped && t.buffer != [])
  {
    if s.alive && s.fdOpen && Fits(s, data) {
      FlushEffect(Taken(s, data), kernel);
      var more := FlushLogs(Taken(s, data), kernel);
      var t := AfterInput(s, data, kernel);
      assert t.log == s.log + [Accepted(data)] + more;
      assert t.log[|s.log| + 1..] == more;
    }
  }

  /** A flush sends exactly what the PTY takes of what waits; a failure discards the rest; the
      drop flag falls exactly when nothing waits any more. */
  lemma FlushDecides(s: State, kernel: seq<WriteResult>)
    requires Enabled(s, Writable(kernel)) && s.fdOpen
    ensures var t := Next(s, Writable(kernel));
            WrittenOut(t, s.sent, s.buffer, kernel) && (t.inputDropped <==> s.inputDropped && t.buffer != [])
  {
    FlushEffect(s, kernel);
  }

  /** The cleanup leaves nothing behind that could be written or called, and nothing to report. */
  lemma CleanupDecides(steps: seq<Step>, s: State)
    requires Run(Spawned(), steps, s)
    ensures var t := Next(s, Cleanup);
            && !t.alive && !t.fdOpen && t.buffer == [] && !t.writerRegistered
            && (s.fdOpen ==> !t.inputDropped && t.log == s.log + [Discarded])
            && (!s.fdOpen ==> t == s)
  {
    RunKeepsInv(Spawned(), steps, s);
  }

  /** The loop of `_flush_write`: write until the buffer is empty, the PTY blocks or a write
      fails, which empties the buffer. */
  method WriteOut(buffer: seq<byte>, kernel: seq<WriteResult>)
    returns (left: seq<byte>, ghost taken: seq<byte>, failed: bool)
    ensures left == Drain(buffer, kernel).left && failed == Drain(buffer, kernel).failed
    ensures !failed ==> taken == Drain(buffer, kernel).taken
  {
    left, taken, failed := buffer, [], false;
    ghost var all := Drain(buffer, kernel);
    var i := 0;
    while |left| > 0 && i < |kernel|
      invariant i <= |kernel| && Continues(all, taken, Drain(left, kernel[i..]))
    {
      if !kernel[i].Wrote? {
        NoMoreWrites(all, taken, left, kernel[i..]);
        failed := kernel[i].Fails?;
        left := if failed then [] else left;
        return;
      }
      var n := Min(kernel[i].extra + 1, |left|);
      OneMoreWrite(all, taken, left, kernel[i..]);
      assert kernel[i..][1..] == kernel[i + 1..];
      taken := taken + left[..n];
      left := left[n..];
      i := i + 1;
    }
    NoMoreWrites(all, taken, left, kernel[i..]);
  }

  // ---- The object ----------------------------------------------------------------------------

  class InputBuffer {
    var alive: bool
    var fdOpen: bool
    var buffer: seq<byte>
    var writerRegistered: bool
    var inputDropped: bool
    ghost var sent: seq<byte>
    ghost var log: seq<Event>

    ghost function Snapshot(): State
      reads this
    {
      State(alive, fdOpen, buffer, writerRegistered, inputDropped, sent, log)
    }

    ghost predicate Valid()
      reads this
    {
      Inv(Snapshot())
    }

    constructor ()
      ensures Snapshot() == Spawned() && Valid()
    {
      alive, fdOpen, buffer, writerRegistered, inputDropped := true, true, [], false, false;
      sent, log := [], [];
    }

    method FlushWrite(kernel: seq<WriteResult>)
      modifies this
      ensures Snapshot() == AfterFlush(old(Snapshot()), kernel)
    {
      if !fdOpen {
        return;
      }
      var failed;
      ghost var taken;
      buffer, taken, failed := WriteOut(buffer, kernel);
      sent := if failed then [] else sent + taken;
      log := log + if failed then [Discarded] else [];
      if |buffer| > 0 {
        if !writerRegistered {
          writerRegistered := true;
        }
        assert log + [] == log;
      } else {
        log := log + [Emptied];
        inputDropped := false;
        if writerRegistered {
          writerRegistered := false;
        }
      }
    }

    /** True exactly at the first drop since the buffer was last empty. */
    method WriteInput(data: string, kernel: seq<WriteResult>) returns (overflowed: bool)
      requires Valid()
      modifies this
      ensures Snapshot() == AfterInput(old(Snapshot()), data, kernel) && Valid()
      ensures overflowed <==> old(alive) && old(fdOpen) && !DroppedSinceEmpty(old(log))
                              && |old(buffer)| + |Utf8.Encode(data)| > WRITE_BUFFER_LIMIT
    {
      InputKeepsInv(Snapshot(), data, kernel);
      if !(alive && fdOpen) {
        return false;
      }
      var encoded := Utf8.Encode(data);
      if |buffer| + |encoded| > WRITE_BUFFER_LIMIT {
        overflowed := !inputDropped;
        inputDropped := true;
        log := log + [Dropped];
        return;
      }
      buffer := buffer + encoded;
      log := log + [Accepted(data)];
      FlushWrite(kernel);
      return false;
    }

    method CleanupFd()
      requires Valid()
      modifies this
      ensures Snapshot() == AfterCleanup(old(Snapshot())) && Valid()
    {
      CleanupKeepsInv(Snapshot());
      alive := false;
      if fdOpen {
        if writerRegistered {
          writerRegistered := false;
        }
        buffer, inputDropped, fdOpen := [], false, false;
        sent, log := [], log + [Discarded];
      }
    }
  }
}
