/** The output path of one `Session`: PTY reader, replay buffer, outbound queues and
    their writer tasks, and the two watermarks.

    Every step is one segment of server code between two `await`s; asyncio runs such a
    segment without interruption, so any interleaving of the tasks is a sequence of steps.
    The fields `output`, `log`, `begun`, `acked`, `closeBegun`, `replay` and `start` are a
    trace: no step reads them, the properties are stated about them. */
module OutboundModel {
  import opened Common

  const BUFFER_LIMIT: nat := 256 * 1024
  const READ_CHUNK: nat := 65536
  const OUTPUT_HIGH_WATERMARK: nat := 1024 * 1024
  const OUTPUT_LOW_WATERMARK: nat := 512 * 1024

  /** A WebSocket object. `terminal_ws` attaches each one at most once. */
  type Socket = nat

  datatype Frame =
    | Data(bytes: seq<byte>)
    | Text(text: string)
    | Close(code: int, reason: string)

  /** A queued frame and, when someone waits for it, the index of its future. */
  datatype Item = Item(frame: Frame, done: Option<nat>)

  /** Where a writer task is suspended: in `queue.get()`, in a send, or not at all. */
  datatype Phase = Waiting | Sending(item: Item) | Finished

  /** One `_outbound_writer` task together with the queue it was given. */
  datatype Writer = Writer(
    ws: Socket,
    queue: seq<Item>,
    phase: Phase,
    cancelled: bool,
    log: seq<Item>,        // every frame ever queued for this writer
    begun: nat,            // how many of them it began to send
    acked: nat,            // how many sends returned normally
    closeBegun: bool,      // some task began closing the socket
    replay: seq<byte>,     // replay buffer when the socket was attached
    start: nat)            // length of the PTY output at that moment

  datatype Outcome = Pending | Sent | Unsent | Abandoned

  /** A completion future, and which frame of which writer it belongs to. */
  datatype Completion = Completion(writer: nat, index: nat, outcome: Outcome)

  /** Progress of the one `attach` that may be running (it holds the key lock). */
  datatype Attach =
    | Idle
    | Stopping(ws: Socket, previous: Socket)
    | ClosingOld(ws: Socket, previous: Socket)
    | Replaying(ws: Socket, done: nat)

  /** `_reader_registered` and `_pty_reader_paused`. */
  datatype Reader = Reader(registered: bool, paused: bool)

  datatype State = State(
    output: seq<byte>,
    buffer: seq<byte>,
    websocket: Option<Socket>,
    outQueue: Option<nat>,
    outWriterTask: Option<nat>,
    outWriterWs: Option<Socket>,
    pendingBytes: int,
    writers: seq<Writer>,
    completions: seq<Completion>,
    attach: Attach,
    alive: bool,
    terminating: bool,
    ending: bool,              // the key lock's holder took the socket in order to terminate
    fdOpen: bool,
    reader: Reader,
    exitScheduled: bool,       // `_exit_task` exists
    stopped: set<Socket>)      // sockets whose writer was stopped in order to close them

  /** The state `spawn` leaves behind. */
  function Spawned(): State {
    State([], [], None, None, None, None, 0, [], [], Idle,
          true, false, false, true, Reader(true, false), false, {})
  }

  // ---- Byte accounting ---------------------------------------------------------------

  function Size(item: Item): nat {
    if item.frame.Data? then |item.frame.bytes| else 0
  }

  function SizeOf(items: seq<Item>): nat {
    if items == [] then 0 else SizeOf(items[..|items| - 1]) + Size(items[|items| - 1])
  }

  /** The bytes carried by a sequence of frames, in order. */
  function BytesOf(items: seq<Item>): seq<byte> {
    if items == [] then []
    else
      var front := BytesOf(items[..|items| - 1]);
      var last := items[|items| - 1].frame;
      if last.Data? then front + last.bytes else front
  }

  /** Payload bytes a writer still holds, queued or in flight. */
  function Held(w: Writer): nat {
    SizeOf(w.queue) + if w.phase.Sending? then Size(w.phase.item) else 0
  }

  function TotalHeld(ws: seq<Writer>): nat {
    if ws == [] then 0 else TotalHeld(ws[..|ws| - 1]) + Held(ws[|ws| - 1])
  }

  // ---- Building blocks ---------------------------------------------------------------

  /** `_pause_pty_reader` and `_resume_pty_reader`. */
  function Pause(reader: Reader, fdOpen: bool): Reader {
    if reader.paused || !fdOpen then reader else Reader(false, true)
  }

  function Resume(reader: Reader, live: bool): Reader {
    if !reader.paused then reader
    else Reader(reader.registered || live, false)
  }

  function ResumeAt(reader: Reader, live: bool, pending: int): Reader {
    if pending <= OUTPUT_LOW_WATERMARK then Resume(reader, live) else reader
  }

  /** Whether a resumed reader is registered again. */
  predicate CanRead(s: State) {
    s.alive && !s.terminating && s.fdOpen
  }

  function PauseIfHigh(s: State): State {
    s.(reader := if s.pendingBytes >= OUTPUT_HIGH_WATERMARK then Pause(s.reader, s.fdOpen) else s.reader)
  }

  function ResumeIfLow(s: State): State {
    s.(reader := ResumeAt(s.reader, CanRead(s), s.pendingBytes))
  }

  predicate QueueExists(s: State) {
    s.outQueue.Some? ==> s.outQueue.value < |s.writers|
  }

  predicate TaskExists(s: State) {
    s.outWriterTask.Some? ==> s.outWriterTask.value < |s.writers|
  }

  function Push(w: Writer, item: Item): Writer {
    w.(queue := w.queue + [item], log := w.log + [item])
  }

  /** The future a caller passes along with a frame, if it wants one. */
  function NewCompletion(s: State, i: nat, wanted: bool): seq<Completion>
    requires i < |s.writers|
  {
    if wanted then [Completion(i, |s.writers[i].log|, Pending)] else []
  }

  function NewItem(s: State, frame: Frame, wanted: bool): Item {
    Item(frame, if wanted then Some(|s.completions|) else None)
  }

  /** Charge the payload and put the frame into the session's queue. */
  function Put(s: State, i: nat, frame: Frame, wanted: bool): State
    requires i < |s.writers|
  {
    var item := NewItem(s, frame, wanted);
    s.(pendingBytes := s.pendingBytes + Size(item),
       writers := s.writers[i := Push(s.writers[i], item)],
       completions := s.completions + NewCompletion(s, i, wanted))
  }

  /** `_enqueue_outbound`, with `wanted` when the caller passes a completion future. */
  function Enqueue(s: State, frame: Frame, wanted: bool): State
    requires QueueExists(s)
  {
    if s.outQueue.None? then s
    else if frame.Data? then PauseIfHigh(Put(s, s.outQueue.value, frame, wanted))
    else Put(s, s.outQueue.value, frame, wanted)
  }

  /** `_stop_outbound_writer` up to its `await`: cancel the writer if it serves `ws`. */
  function StopWriter(s: State, ws: Socket): State
    requires TaskExists(s)
  {
    if s.outWriterTask.None? || s.outWriterWs != Some(ws) then s
    else
      var i := s.outWriterTask.value;
      s.(writers := s.writers[i := s.writers[i].(cancelled := true)])
  }

  /** `future.set_result`, guarded by `not future.done()`. */
  function Settle(cs: seq<Completion>, done: Option<nat>, outcome: Outcome): seq<Completion>
    requires done.Some? ==> done.value < |cs|
  {
    if done.Some? && cs[done.value].outcome.Pending?
    then cs[done.value := cs[done.value].(outcome := outcome)]
    else cs
  }

  function GiveUp(c: Completion, writer: nat): Completion {
    if c.writer == writer && c.outcome.Pending? then c.(outcome := Unsent) else c
  }

  /** Every future still pending on one writer's frames becomes false. */
  function GiveUpAll(cs: seq<Completion>, writer: nat): (r: seq<Completion>)
    ensures |r| == |cs|
  {
    seq(|cs|, f requires 0 <= f < |cs| => GiveUp(cs[f], writer))
  }

  /** The drain loop: queued and in-flight frames are given up and no longer pending. */
  function Drain(s: State, i: nat): State
    requires i < |s.writers|
  {
    s.(pendingBytes := s.pendingBytes - Held(s.writers[i]),
       writers := s.writers[i := s.writers[i].(queue := [], phase := Finished)],
       completions := GiveUpAll(s.completions, i))
  }

  /** A writer clears the session's fields only while they are still its own. */
  function Forget(s: State, i: nat): State {
    if s.outWriterTask == Some(i)
    then s.(outQueue := None, outWriterTask := None, outWriterWs := None)
    else s
  }

  /** The end of `_outbound_writer`: drain, resume the reader, forget the writer. */
  function FinishWriter(s: State, i: nat): State
    requires i < |s.writers|
  {
    Forget(ResumeIfLow(Drain(s, i)), i)
  }

  /** `_cleanup_fd`, as far as the output path is concerned. */
  function CleanupFd(s: State): State {
    if !s.fdOpen then s
    else s.(reader := Reader(false, false), fdOpen := false)
  }

  /** A close begun by a task other than the writer of `ws`. */
  function MarkClosed(ws: seq<Writer>, socket: Socket): (r: seq<Writer>)
    ensures |r| == |ws|
  {
    seq(|ws|, i requires 0 <= i < |ws| =>
      if ws[i].ws == socket then ws[i].(closeBegun := true) else ws[i])
  }

  // ---- Steps -------------------------------------------------------------------------

  /** What `os.read` on the PTY master can do. */
  datatype ReadResult = WouldBlock | EndOfFile | Chunk(data: seq<byte>)

  datatype Step =
    | PtyReadable(result: ReadResult)
    | WriterTakes(i: nat)
    | WriterSent(i: nat)
    | WriterFails(i: nat)
    | AttachBegins(ws: Socket)
    | AttachClosesOld
    | AttachInstalls
    | AttachReturns
    | AttachCancelled
    | Detaches(ws: Socket)
    | SendsStatus(text: string)
    | ClosesAttached(ws: Socket, code: int, reason: string)
    | CloseTimesOut(ws: Socket)
    | ClosesDirectly(ws: Socket)
    | ChildExits(text: string, reason: string)
    | EndNotifies(text: string, code: int, reason: string)
    | Replaced
    | EndCancelled        // the task that was ending or replacing the session, before it terminates
    | TerminateBegins
    | TerminateEnds

  predicate IsWriterStep(step: Step) {
    step.WriterTakes? || step.WriterSent? || step.WriterFails?
  }

  function AfterPtyReadable(s: State, result: ReadResult): State
    requires QueueExists(s)
  {
    match result
    case WouldBlock => s
    case EndOfFile =>
      s.(reader := s.reader.(registered := s.reader.registered && !s.fdOpen), exitScheduled := true)
    case Chunk(data) =>
      var read := s.(output := s.output + data, buffer := Last(s.buffer + data, BUFFER_LIMIT));
      if read.websocket.Some? then Enqueue(read, Data(data), false) else read
  }

  function AfterTake(s: State, i: nat): State
    requires i < |s.writers| && |s.writers[i].queue| > 0
  {
    var w := s.writers[i];
    var item := w.queue[0];
    s.(writers := s.writers[i := w.(
      queue := w.queue[1..],
      phase := Sending(item),
      begun := w.begun + 1,
      closeBegun := w.closeBegun || item.frame.Close?)])
  }

  predicate InFlightKnown(s: State, i: nat) {
    && i < |s.writers|
    && s.writers[i].phase.Sending?
    && (s.writers[i].phase.item.done.Some? ==>
          s.writers[i].phase.item.done.value < |s.completions|)
  }

  /** The inner `finally` after a send that returned: uncharge it, resolve its future. */
  function Acknowledge(s: State, i: nat): State
    requires InFlightKnown(s, i)
  {
    var w := s.writers[i];
    s.(pendingBytes := s.pendingBytes - Size(w.phase.item),
       writers := s.writers[i := w.(phase := Waiting, acked := w.acked + 1)],
       completions := Settle(s.completions, w.phase.item.done, Sent))
  }

  function AfterSent(s: State, i: nat): State
    requires InFlightKnown(s, i)
  {
    var sent := ResumeIfLow(Acknowledge(s, i));
    if s.writers[i].phase.item.frame.Close? then FinishWriter(sent, i) else sent
  }

  /** Lines 683-689 of `attach`: publish the socket and start its writer. */
  function Publish(s: State, ws: Socket): State {
    var i := |s.writers|;
    s.(websocket := Some(ws),
       outQueue := Some(i),
       outWriterTask := Some(i),
       outWriterWs := Some(ws),
       writers := s.writers + [Writer(ws, [], Waiting, false, [], 0, 0, false, s.buffer, |s.output|)],
       attach := Idle)
  }

  /** Lines 683-692 of `attach`: publish, then queue the replay in the same segment. */
  function Install(s: State, ws: Socket): State {
    if s.buffer == [] then Publish(s, ws)
    else
      Enqueue(Publish(s, ws), Data(s.buffer), true).(attach := Replaying(ws, |s.completions|))
  }

  function AfterAttachBegins(s: State, ws: Socket): State
    requires TaskExists(s)
  {
    if s.websocket.None? then Install(s, ws)
    else
      var previous := s.websocket.value;
      StopWriter(s.(websocket := None), previous).(attach := Stopping(ws, previous))
  }

  function DropSocket(s: State, ws: Socket): State
    requires TaskExists(s)
  {
    if s.websocket == Some(ws) then StopWriter(s.(websocket := None), ws) else s
  }

  /** A task awaiting the replay future directly cancels that future with itself; the
      writer is stopped in any case, only the socket field is guarded. A cancellation while
      the previous writer is being stopped is suppressed. */
  function AfterAttachCancelled(s: State): State
    requires TaskExists(s) && (s.attach.Replaying? ==> s.attach.done < |s.completions|)
  {
    match s.attach
    case Replaying(ws, done) =>
      var abandoned := s.(completions := Settle(s.completions, Some(done), Abandoned), attach := Idle);
      if s.websocket == Some(ws) then DropSocket(abandoned, ws) else StopWriter(abandoned, ws)
    case ClosingOld(_, _) => s.(attach := Idle)
    case _ => s
  }

  function AfterClosesAttached(s: State, ws: Socket, code: int, reason: string): State
    requires QueueExists(s)
  {
    if s.outWriterWs == Some(ws) then Enqueue(s, Close(code, reason), true)
    else s.(writers := MarkClosed(s.writers, ws))
  }

  /** Detach the socket, if any, and queue a last text and a close for it. */
  function Farewell(s: State, text: string, code: int, reason: string): (t: State)
    requires QueueExists(s)
    ensures QueueExists(t)
  {
    if s.websocket.None? then s
    else Enqueue(Enqueue(s.(websocket := None), Text(text), false), Close(code, reason), true)
  }

  function AfterChildExits(s: State, text: string, reason: string): State
    requires QueueExists(s)
  {
    Farewell(CleanupFd(s.(alive := false)), text, 1000, reason)
  }

  /** `start_locked` on a live session: drop its socket, which it then closes itself. */
  function AfterReplaced(s: State): State
    requires TaskExists(s)
  {
    if s.websocket.None? then s.(ending := true)
    else
      var ws := s.websocket.value;
      var dropped := DropSocket(s, ws);
      dropped.(ending := true, stopped := dropped.stopped + {ws})
  }

  predicate Attached(ws: seq<Writer>, socket: Socket) {
    exists i :: 0 <= i < |ws| && ws[i].ws == socket
  }

  /** When the segment can run. The lock of `SessionManager.transition` is why `attach`,
      `end`, idle expiry and replacement exclude each other; `get_live` is why `attach`
      starts on a session that is alive and not terminating. */
  predicate Enabled(s: State, step: Step) {
    && QueueExists(s) && TaskExists(s)
    && match step
       case PtyReadable(result) =>
         s.reader.registered && (result.Chunk? ==> 0 < |result.data| <= READ_CHUNK)
       case WriterTakes(i) =>
         && i < |s.writers| && s.writers[i].phase.Waiting?
         && !s.writers[i].cancelled && |s.writers[i].queue| > 0
       case WriterSent(i) =>
         InFlightKnown(s, i) && !s.writers[i].cancelled
       case WriterFails(i) =>
         && i < |s.writers| && !s.writers[i].phase.Finished?
         && (s.writers[i].cancelled || s.writers[i].phase.Sending?)
       case AttachBegins(ws) =>
         && s.attach.Idle? && s.alive && !s.terminating && !s.ending
         && !Attached(s.writers, ws)
       case AttachClosesOld => s.attach.Stopping?
       case AttachInstalls => s.attach.ClosingOld?
       case AttachReturns =>
         && s.attach.Replaying? && s.attach.done < |s.completions|
         && !s.completions[s.attach.done].outcome.Pending?
       case AttachCancelled =>
         !s.attach.Idle? && (s.attach.Replaying? ==> s.attach.done < |s.completions|)
       case Detaches(ws) => true
       case SendsStatus(text) => true
       case ClosesAttached(ws, code, reason) => Attached(s.writers, ws)
       case CloseTimesOut(ws) => Attached(s.writers, ws)
       case ClosesDirectly(ws) => ws in s.stopped
       case ChildExits(text, reason) => s.exitScheduled && s.alive
       case EndNotifies(text, code, reason) => s.attach.Idle?
       case Replaced => s.attach.Idle?
       case EndCancelled => s.ending && !s.terminating
       case TerminateBegins => s.alive
       case TerminateEnds => s.terminating
  }

  function Next(s: State, step: Step): State
    requires Enabled(s, step)
  {
    match step
    case PtyReadable(result) => AfterPtyReadable(s, result)
    case WriterTakes(i) => AfterTake(s, i)
    case WriterSent(i) => AfterSent(s, i)
    case WriterFails(i) => FinishWriter(s, i)
    case AttachBegins(ws) => AfterAttachBegins(s, ws)
    case AttachClosesOld =>
      s.(writers := MarkClosed(s.writers, s.attach.previous), attach := ClosingOld(s.attach.ws, s.attach.previous))
    case AttachInstalls => Install(s, s.attach.ws)
    case AttachReturns => s.(attach := Idle)
    case AttachCancelled => AfterAttachCancelled(s)
    case Detaches(ws) => DropSocket(s, ws)
    case SendsStatus(text) => Enqueue(s, Text(text), false)
    case ClosesAttached(ws, code, reason) => AfterClosesAttached(s, ws, code, reason)
    case CloseTimesOut(ws) => StopWriter(s, ws).(stopped := s.stopped + {ws})
    case ClosesDirectly(ws) => s.(writers := MarkClosed(s.writers, ws))
    case ChildExits(text, reason) => AfterChildExits(s, text, reason)
    case EndNotifies(text, code, reason) => Farewell(s.(ending := true), text, code, reason)
    case Replaced => AfterReplaced(s)
    case EndCancelled => s.(ending := false)
    case TerminateBegins => s.(terminating := true)
    case TerminateEnds => CleanupFd(s.(alive := false))
  }

  /** `t` is reached from `s` by exactly these steps, each one enabled when it is taken. */
  ghost predicate Run(s: State, steps: seq<Step>, t: State)
    decreases |steps|
  {
    if steps == [] then s == t
    else Enabled(s, steps[0]) && Run(Next(s, steps[0]), steps[1..], t)
  }
}
