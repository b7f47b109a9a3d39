/** Every segment keeps the whole invariant, so every run does. */
module OutboundSteps {
  import opened Common
  import opened OutboundModel
  import opened OutboundSums
  import opened OutboundInvariant
  import opened OutboundCore
  import opened OutboundFlow

  // ---- Segments that move no payload -------------------------------------------------------

  predicate SamePayloads(ws: seq<Writer>, vs: seq<Writer>) {
    SameHistories(ws, vs) && forall i :: 0 <= i < |ws| ==> Held(vs[i]) == Held(ws[i])
  }

  lemma QuietKeepsFlow(s: State, t: State)
    requires Flow(s) && SamePayloads(s.writers, t.writers) && ReaderOk(t)
    requires t.output == s.output && t.buffer == s.buffer && t.pendingBytes == s.pendingBytes
    requires t.outWriterTask == s.outWriterTask && (t.websocket == s.websocket || t.websocket.None?)
    ensures Flow(t)
  {
    TotalHeldSame(s.writers, t.writers);
    LighterKeepsBacklog(s.writers, t.writers, |s.output|);
    DetachingKeepsStreams(s.writers, t.writers, s.output,
      s.outWriterTask, s.websocket, t.outWriterTask, t.websocket);
  }

  lemma StopKeepsFlow(s: State, ws: Socket)
    requires Flow(s) && TaskExists(s)
    ensures Flow(StopWriter(s, ws))
  {
    if s.outWriterTask.Some? && s.outWriterWs == Some(ws) {
      var i := s.outWriterTask.value;
      CancelKeepsFlow(s, i);
    }
  }

  lemma CancelKeepsFlow(s: State, i: nat)
    requires Flow(s) && i < |s.writers|
    ensures Flow(s.(writers := s.writers[i := s.writers[i].(cancelled := true)]))
  {
    QuietKeepsFlow(s, s.(writers := s.writers[i := s.writers[i].(cancelled := true)]));
  }

  lemma ReleaseKeepsFlow(s: State)
    requires Flow(s)
    ensures Flow(s.(websocket := None))
  {
    QuietKeepsFlow(s, s.(websocket := None));
  }

  lemma DropKeepsFlow(s: State, ws: Socket)
    requires Flow(s) && TaskExists(s)
    ensures Flow(DropSocket(s, ws))
  {
    if s.websocket == Some(ws) {
      ReleaseKeepsFlow(s);
      StopKeepsFlow(s.(websocket := None), ws);
    }
  }

  lemma MarkKeepsFlow(s: State, ws: Socket)
    requires Flow(s)
    ensures Flow(s.(writers := MarkClosed(s.writers, ws)))
  {
    QuietKeepsFlow(s, s.(writers := MarkClosed(s.writers, ws)));
  }

  /** A frame that is begun is still held. */
  lemma TakeHolds(s: State, i: nat)
    requires i < |s.writers| && |s.writers[i].queue| > 0 && s.writers[i].phase.Waiting?
    ensures SamePayloads(s.writers, AfterTake(s, i).writers)
  {
    SizeOfFirst(s.writers[i].queue);
    var v := AfterTake(s, i).writers[i];
    assert Held(v) == Held(s.writers[i]);
  }

  lemma TakeKeepsFlow(s: State, i: nat)
    requires Flow(s) && Enabled(s, WriterTakes(i))
    ensures Flow(AfterTake(s, i))
  {
    TakeHolds(s, i);
    var t := AfterTake(s, i);
    assert ReaderOk(t);
    QuietKeepsFlow(s, t);
  }

  // ---- Segments that queue, send or give up ------------------------------------------------

  lemma ControlKeepsFlow(s: State, frame: Frame, wanted: bool)
    requires Flow(s) && QueueExists(s) && !frame.Data?
    ensures Flow(Enqueue(s, frame, wanted))
  {
    if s.outQueue.Some? {
      var i := s.outQueue.value;
      var item := NewItem(s, frame, wanted);
      PutAccounts(s, i, frame, wanted);
      ControlKeepsStreams(s.writers, i, item, s.output, s.outWriterTask, s.websocket);
      ControlKeepsBacklog(s.writers, i, item, |s.output|);
    }
  }

  lemma FarewellKeepsFlow(s: State, text: string, code: int, reason: string)
    requires Flow(s) && QueueExists(s)
    ensures Flow(Farewell(s, text, code, reason))
  {
    if s.websocket.Some? {
      var t := s.(websocket := None);
      QuietKeepsFlow(s, t);
      ControlKeepsFlow(t, Text(text), false);
      ControlKeepsFlow(Enqueue(t, Text(text), false), Close(code, reason), true);
    }
  }

  /** One writer holds fewer bytes, the counter follows, the low mark is checked. */
  lemma UnloadKeepsFlow(s: State, i: nat, v: Writer, lower: State)
    requires Flow(s) && i < |s.writers|
    requires SameHistory(s.writers[i], v) && Held(v) <= Held(s.writers[i])
    requires lower.writers == s.writers[i := v]
    requires lower.pendingBytes == s.pendingBytes - Held(s.writers[i]) + Held(v)
    requires lower.output == s.output && lower.buffer == s.buffer && SameReader(s, lower)
    requires lower.outWriterTask == s.outWriterTask && lower.websocket == s.websocket
    ensures Flow(ResumeIfLow(lower))
  {
    TotalHeldUpdate(s.writers, i, v);
    LighterKeepsBacklog(s.writers, lower.writers, |s.output|);
    DetachingKeepsStreams(s.writers, lower.writers, s.output,
      s.outWriterTask, s.websocket, s.outWriterTask, s.websocket);
    ResumeRestoresReader(s, lower);
  }

  lemma FinishKeepsFlow(s: State, i: nat)
    requires Flow(s) && i < |s.writers|
    ensures Flow(FinishWriter(s, i))
  {
    var drained := ResumeIfLow(Drain(s, i));
    UnloadKeepsFlow(s, i, s.writers[i].(queue := [], phase := Finished), Drain(s, i));
    DetachingKeepsStreams(drained.writers, drained.writers, drained.output,
      drained.outWriterTask, drained.websocket, None, drained.websocket);
  }

  lemma SentKeepsFlow(s: State, i: nat)
    requires Flow(s) && InFlightKnown(s, i)
    ensures Flow(AfterSent(s, i))
  {
    var w := s.writers[i];
    UnloadKeepsFlow(s, i, w.(phase := Waiting, acked := w.acked + 1), Acknowledge(s, i));
    if w.phase.item.frame.Close? {
      FinishKeepsFlow(ResumeIfLow(Acknowledge(s, i)), i);
    }
  }

  // ---- Reading and attaching ---------------------------------------------------------------

  /** The session after `os.read`, before the chunk is queued. */
  function Grown(s: State, data: seq<byte>): State {
    s.(output := s.output + data, buffer := Last(s.buffer + data, BUFFER_LIMIT))
  }

  lemma StreamsStartBefore(ws: seq<Writer>, output: seq<byte>, task: Option<nat>, websocket: Option<Socket>)
    requires StreamsOk(ws, output, task, websocket)
    ensures forall j :: 0 <= j < |ws| ==> ws[j].start <= |output|
  {
    forall j | 0 <= j < |ws| ensures ws[j].start <= |output| {
      assert StreamOk(ws[j], output, Live(ws[j], j, task, websocket));
    }
  }

  /** After a read no writer is as young as the output. */
  lemma HeardResetsBacklog(s: State, i: nat, data: seq<byte>, t: State)
    requires StreamOrderOk(s) && ReaderOk(s) && i < |s.writers|
    requires s.reader.registered && 0 < |data| <= READ_CHUNK
    requires t == Put(Grown(s, data), i, Data(data), false) && AccountOk(t)
    ensures BacklogOk(t.writers, |t.output|)
  {
    StreamsStartBefore(s.writers, s.output, s.outWriterTask, s.websocket);
    ReadingResetsBacklog(t.writers, |t.output|);
  }

  lemma HeardKeepsFlow(s: State, i: nat, data: seq<byte>, t: State)
    requires Core(s) && Flow(s) && s.outQueue == Some(i) && s.websocket.Some?
    requires s.reader.registered && 0 < |data| <= READ_CHUNK
    requires t == Put(Grown(s, data), i, Data(data), false)
    ensures Flow(PauseIfHigh(t))
  {
    LastOfAppend(s.output, data, BUFFER_LIMIT);
    PutAccounts(Grown(s, data), i, Data(data), false);
    HeardKeepsStreams(s.writers, i, s.output, data, s.websocket);
    PauseRestoresReader(s, t);
    HeardResetsBacklog(s, i, data, t);
  }

  lemma UnheardKeepsFlow(s: State, data: seq<byte>)
    requires Flow(s) && s.reader.registered && 0 < |data|
    requires s.outWriterTask.None? || s.websocket.None?
    ensures Flow(Grown(s, data))
  {
    LastOfAppend(s.output, data, BUFFER_LIMIT);
    UnheardKeepsStreams(s.writers, s.output, data, s.outWriterTask, s.websocket);
    assert forall j :: 0 <= j < |s.writers| ==> StreamOk(s.writers[j], s.output, Live(s.writers[j], j, s.outWriterTask, s.websocket));
    ReadingResetsBacklog(s.writers, |s.output| + |data|);
  }

  lemma ReadKeepsFlow(s: State, result: ReadResult)
    requires Core(s) && Flow(s) && Enabled(s, PtyReadable(result))
    ensures Flow(AfterPtyReadable(s, result))
  {
    match result
    case WouldBlock =>
    case EndOfFile =>
    case Chunk(data) =>
      if s.websocket.Some? && s.outQueue.Some? {
        HeardKeepsFlow(s, s.outQueue.value, data, Put(Grown(s, data), s.outQueue.value, Data(data), false));
      } else {
        UnheardKeepsFlow(s, data);
      }
  }

  /** The queue of a new writer once the replay, if any, is in it. */
  function Opened(s: State, ws: Socket): Writer {
    var w := Writer(ws, [], Waiting, false, [], 0, 0, false, s.buffer, |s.output|);
    if s.buffer == [] then w else Push(w, NewItem(s, Data(s.buffer), true))
  }

  lemma InstallOpens(s: State, ws: Socket)
    ensures var t := Install(s, ws);
            && t.writers == s.writers + [Opened(s, ws)]
            && t.output == s.output && t.buffer == s.buffer
            && t.outWriterTask == Some(|s.writers|) && t.websocket == Some(ws)
  {
    var published := Publish(s, ws);
    var n := |s.writers|;
    if s.buffer != [] {
      var put := Put(published, n, Data(s.buffer), true);
      assert put.writers == s.writers + [Opened(s, ws)];
      assert Enqueue(published, Data(s.buffer), true) == PauseIfHigh(put);
    } else {
      assert published.writers == s.writers + [Opened(s, ws)];
    }
  }

  lemma OpenedIsExact(s: State, ws: Socket)
    ensures BytesOf(Opened(s, ws).log) == s.buffer
    ensures Held(Opened(s, ws)) == |s.buffer|
  {
    var item := NewItem(s, Data(s.buffer), true);
    SizeOfAppend([], item);
    assert [] + [item] == [item];
  }

  lemma InstallKeepsStreams(s: State, ws: Socket, t: State)
    requires StreamOrderOk(s) && BacklogOk(s.writers, |s.output|)
    requires t.writers == s.writers + [Opened(s, ws)] && t.output == s.output && t.buffer == s.buffer
    requires t.outWriterTask == Some(|s.writers|) && t.websocket == Some(ws)
    ensures StreamOrderOk(t) && BacklogOk(t.writers, |t.output|)
  {
    var w := Opened(s, ws);
    OpenedIsExact(s, ws);
    FreshStreamOk(w, s.output);
    AddingKeepsStreams(s.writers, w, s.output, s.outWriterTask, s.websocket);
    AddingKeepsBacklog(s.writers, w, |s.output|);
  }

  lemma PublishAccounts(s: State, ws: Socket)
    requires AccountOk(s) && ReaderOk(s)
    ensures AccountOk(Publish(s, ws)) && ReaderOk(Publish(s, ws))
  {
    TotalHeldAppend(s.writers, Publish(s, ws).writers[|s.writers|]);
  }

  lemma ReplayAccounts(s: State, i: nat, replay: seq<byte>)
    requires AccountOk(s) && ReaderOk(s) && s.outQueue == Some(i) && i < |s.writers|
    ensures AccountOk(Enqueue(s, Data(replay), true)) && ReaderOk(Enqueue(s, Data(replay), true))
  {
    PutAccounts(s, i, Data(replay), true);
    PauseRestoresReader(s, Put(s, i, Data(replay), true));
  }

  lemma InstallAccounts(s: State, ws: Socket)
    requires AccountOk(s) && ReaderOk(s)
    ensures AccountOk(Install(s, ws)) && ReaderOk(Install(s, ws))
  {
    PublishAccounts(s, ws);
    if s.buffer != [] {
      ReplayAccounts(Publish(s, ws), |s.writers|, s.buffer);
    }
  }

  lemma InstallKeepsFlow(s: State, ws: Socket)
    requires Flow(s)
    ensures Flow(Install(s, ws))
  {
    InstallOpens(s, ws);
    InstallKeepsStreams(s, ws, Install(s, ws));
    InstallAccounts(s, ws);
  }

  lemma AttachCancelledKeepsFlow(s: State)
    requires Core(s) && Flow(s) && Enabled(s, AttachCancelled)
    ensures Flow(AfterAttachCancelled(s))
  {
    match s.attach
    case Replaying(ws, done) =>
      var abandoned := s.(completions := Settle(s.completions, Some(done), Abandoned), attach := Idle);
      QuietKeepsFlow(s, abandoned);
      DropKeepsFlow(abandoned, ws);
      StopKeepsFlow(abandoned, ws);
    case ClosingOld(_, _) => QuietKeepsFlow(s, s.(attach := Idle));
    case _ =>
  }

  lemma CleanupKeepsFlow(s: State)
    requires Flow(s)
    ensures Flow(CleanupFd(s.(alive := false)))
  {
    QuietKeepsFlow(s, CleanupFd(s.(alive := false)));
  }

  lemma ReplacedKeepsFlow(s: State)
    requires Flow(s) && TaskExists(s)
    ensures Flow(AfterReplaced(s))
  {
    if s.websocket.Some? {
      DropKeepsFlow(s, s.websocket.value);
      QuietKeepsFlow(DropSocket(s, s.websocket.value), AfterReplaced(s));
    } else {
      QuietKeepsFlow(s, s.(ending := true));
    }
  }

  lemma AttachBeginsKeepsFlow(s: State, ws: Socket)
    requires Flow(s) && TaskExists(s)
    ensures Flow(AfterAttachBegins(s, ws))
  {
    if s.websocket.None? {
      InstallKeepsFlow(s, ws);
    } else {
      DropKeepsFlow(s, s.websocket.value);
      QuietKeepsFlow(DropSocket(s, s.websocket.value), AfterAttachBegins(s, ws));
    }
  }

  // ---- All segments ------------------------------------------------------------------------

  lemma CloseKeepsFlow(s: State, ws: Socket, code: int, reason: string)
    requires Flow(s) && QueueExists(s)
    ensures Flow(AfterClosesAttached(s, ws, code, reason))
  {
    if s.outWriterWs == Some(ws) {
      ControlKeepsFlow(s, Close(code, reason), true);
    } else {
      MarkKeepsFlow(s, ws);
    }
  }

  lemma ChildExitsKeepsFlow(s: State, text: string, reason: string)
    requires Flow(s) && QueueExists(s)
    ensures Flow(AfterChildExits(s, text, reason))
  {
    CleanupKeepsFlow(s);
    FarewellKeepsFlow(CleanupFd(s.(alive := false)), text, 1000, reason);
  }

  lemma EndNotifiesKeepsFlow(s: State, text: string, code: int, reason: string)
    requires Flow(s) && QueueExists(s)
    ensures Flow(Farewell(s.(ending := true), text, code, reason))
  {
    QuietKeepsFlow(s, s.(ending := true));
    FarewellKeepsFlow(s.(ending := true), text, code, reason);
  }

  lemma CloseTimesOutKeepsFlow(s: State, ws: Socket)
    requires Flow(s) && TaskExists(s)
    ensures Flow(StopWriter(s, ws).(stopped := s.stopped + {ws}))
  {
    StopKeepsFlow(s, ws);
    QuietKeepsFlow(StopWriter(s, ws), StopWriter(s, ws).(stopped := s.stopped + {ws}));
  }

  lemma AttachClosesOldKeepsFlow(s: State)
    requires Flow(s) && Enabled(s, AttachClosesOld)
    ensures Flow(Next(s, AttachClosesOld))
  {
    MarkKeepsFlow(s, s.attach.previous);
    QuietKeepsFlow(s.(writers := MarkClosed(s.writers, s.attach.previous)), Next(s, AttachClosesOld));
  }

  lemma RouteKeepsFlow(s: State, step: Step)
    requires Core(s) && Flow(s) && Enabled(s, step)
    requires step.AttachBegins? || step.AttachClosesOld? || step.AttachInstalls? || step.AttachReturns?
             || step.AttachCancelled? || step.Detaches? || step.SendsStatus?
    ensures Flow(Next(s, step))
  {
    match step
    case AttachBegins(ws) => AttachBeginsKeepsFlow(s, ws);
    case AttachClosesOld => AttachClosesOldKeepsFlow(s);
    case AttachInstalls => InstallKeepsFlow(s, s.attach.ws);
    case AttachReturns => QuietKeepsFlow(s, Next(s, step));
    case AttachCancelled => AttachCancelledKeepsFlow(s);
    case Detaches(ws) => DropKeepsFlow(s, ws);
    case SendsStatus(text) => ControlKeepsFlow(s, Text(text), false);
  }

  predicate IsCloseStep(step: Step) {
    step.ClosesAttached? || step.CloseTimesOut? || step.ClosesDirectly?
  }

  predicate IsEndStep(step: Step) {
    || step.ChildExits? || step.EndNotifies? || step.Replaced? || step.EndCancelled?
    || step.TerminateBegins? || step.TerminateEnds?
  }

  lemma ClosingKeepsFlow(s: State, step: Step)
    requires Flow(s) && Enabled(s, step) && IsCloseStep(step)
    ensures Flow(Next(s, step))
  {
    if step.ClosesAttached? {
      CloseKeepsFlow(s, step.ws, step.code, step.reason);
    } else if step.CloseTimesOut? {
      CloseTimesOutKeepsFlow(s, step.ws);
    } else {
      MarkKeepsFlow(s, step.ws);
    }
  }

  lemma EndKeepsFlow(s: State, step: Step)
    requires Flow(s) && Enabled(s, step) && IsEndStep(step)
    ensures Flow(Next(s, step))
  {
    if step.ChildExits? {
      ChildExitsKeepsFlow(s, step.text, step.reason);
    } else if step.EndNotifies? {
      EndNotifiesKeepsFlow(s, step.text, step.code, step.reason);
    } else if step.Replaced? {
      ReplacedKeepsFlow(s);
    } else if step.TerminateEnds? {
      CleanupKeepsFlow(s);
    } else {
      LifeKeepsFlow(s, Next(s, step));
    }
  }

  lemma LifeKeepsFlow(s: State, t: State)
    requires Flow(s) && t == s.(terminating := t.terminating, ending := t.ending)
    requires s.terminating ==> t.terminating
    ensures Flow(t)
  {
    QuietKeepsFlow(s, t);
  }

  lemma StepKeepsFlow(s: State, step: Step)
    requires Core(s) && Flow(s) && Enabled(s, step)
    ensures Flow(Next(s, step))
  {
    if step.PtyReadable? {
      ReadKeepsFlow(s, step.result);
    } else if step.WriterTakes? {
      TakeKeepsFlow(s, step.i);
    } else if step.WriterSent? {
      SentKeepsFlow(s, step.i);
    } else if step.WriterFails? {
      FinishKeepsFlow(s, step.i);
    } else if IsCloseStep(step) {
      ClosingKeepsFlow(s, step);
    } else if IsEndStep(step) {
      EndKeepsFlow(s, step);
    } else {
      RouteKeepsFlow(s, step);
    }
  }

  lemma StepKeepsInv(s: State, step: Step)
    requires Inv(s) && Enabled(s, step)
    ensures Inv(Next(s, step))
  {
    StepKeepsCore(s, step);
    StepKeepsFlow(s, step);
  }

  lemma {:induction false} RunKeepsInv(s: State, steps: seq<Step>, t: State)
    requires Inv(s) && Run(s, steps, t)
    ensures Inv(t)
    decreases |steps|
  {
    if steps != [] {
      StepKeepsInv(s, steps[0]);
      RunKeepsInv(Next(s, steps[0]), steps[1..], t);
    }
  }
}
