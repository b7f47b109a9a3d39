/** Every segment keeps `Core`. */
module OutboundCore {
  import opened Common
  import opened OutboundModel
  import opened OutboundInvariant

  // ---- Enqueue -------------------------------------------------------------------------

  lemma PushKeepsFrames(w: Writer, item: Item)
    requires FramesOk(w) && !w.phase.Finished?
    ensures FramesOk(Push(w, item))
  {
  }

  lemma PushKeepsCompletions(ws: seq<Writer>, cs: seq<Completion>, i: nat, item: Item, more: seq<Completion>)
    requires CompletionsOk(ws, cs) && i < |ws| && !ws[i].phase.Finished?
    requires FramesOk(ws[i])
    requires item.done == if more == [] then None else Some(|cs|)
    requires more == [] || more == [Completion(i, |ws[i].log|, Pending)]
    ensures CompletionsOk(ws[i := Push(ws[i], item)], cs + more)
  {
    var vs := ws[i := Push(ws[i], item)];
    forall j | 0 <= j < |vs| ensures OwnsIts(cs + more, vs[j].log, j) {
      assert OwnsIts(cs, ws[j].log, j);
    }
  }

  lemma PushRetires(w: Writer, item: Item)
    ensures RetiresOne(w, Push(w, item))
  {
    if Leaving(w) {
      var k :| w.acked <= k < |w.log| && w.log[k].frame.Close?;
      assert Push(w, item).log[k] == w.log[k];
    }
  }

  lemma PutKeepsCore(s: State, i: nat, frame: Frame, wanted: bool)
    requires Core(s) && s.outQueue == Some(i) && QueueExists(s)
    ensures Core(Put(s, i, frame, wanted))
  {
    var t := Put(s, i, frame, wanted);
    var item := NewItem(s, frame, wanted);
    assert FramesOk(s.writers[i]);
    PushKeepsFrames(s.writers[i], item);
    assert AllFramesOk(t.writers);
    PushKeepsCompletions(s.writers, s.completions, i, item, NewCompletion(s, i, wanted));
    PushRetires(s.writers[i], item);
    OneRetires(s.writers, i, Push(s.writers[i], item));
    RetiringKeepsLinks(s.writers, t.writers, s.outWriterTask, s.outWriterWs, s.stopped);
    RetiringKeepsSockets(s, t);
  }

  lemma EnqueueKeepsCore(s: State, frame: Frame, wanted: bool)
    requires Core(s) && QueueExists(s)
    ensures Core(Enqueue(s, frame, wanted))
  {
    if s.outQueue.Some? {
      PutKeepsCore(s, s.outQueue.value, frame, wanted);
      var put := Put(s, s.outQueue.value, frame, wanted);
      var t := Enqueue(s, frame, wanted);
      RetiringKeepsSockets(put, t);
    }
  }

  // ---- Taking and sending ----------------------------------------------------------------

  lemma TakeKeepsCore(s: State, i: nat)
    requires Core(s) && Enabled(s, WriterTakes(i))
    ensures Core(AfterTake(s, i))
  {
    var t := AfterTake(s, i);
    assert FramesOk(s.writers[i]);
    assert FramesOk(t.writers[i]);
    SameLogKeepsCompletions(s.writers, s.completions, i, t.writers[i]);
    OneRetires(s.writers, i, t.writers[i]);
    RetiringKeepsLinks(s.writers, t.writers, s.outWriterTask, s.outWriterWs, s.stopped);
    RetiringKeepsSockets(s, t);
  }

  lemma FinishKeepsCompletions(ws: seq<Writer>, cs: seq<Completion>, i: nat)
    requires CompletionsOk(ws, cs) && i < |ws|
    ensures CompletionsOk(ws[i := ws[i].(queue := [], phase := Finished)], GiveUpAll(cs, i))
  {
  }

  /** A writer ends: the session forgets it if it was its own. */
  predicate Forgets(s: State, i: nat, t: State) {
    && t.websocket == s.websocket && t.attach == s.attach && t.stopped == s.stopped
    && if s.outWriterTask == Some(i)
       then t.outQueue.None? && t.outWriterTask.None? && t.outWriterWs.None?
       else t.outQueue == s.outQueue && t.outWriterTask == s.outWriterTask && t.outWriterWs == s.outWriterWs
  }

  lemma EndKeepsWiring(s: State, i: nat, v: Writer, t: State)
    requires LinksOk(s.writers, s.outWriterTask, s.outWriterWs, s.stopped) && SocketsOk(s)
    requires i < |s.writers| && v.ws == s.writers[i].ws && v.phase.Finished?
    requires t.writers == s.writers[i := v] && Forgets(s, i, t)
    ensures LinksOk(t.writers, t.outWriterTask, t.outWriterWs, t.stopped) && SocketsOk(t)
  {
    OneRetires(s.writers, i, v);
    if s.outWriterTask == Some(i) {
      ForgettingKeepsLinks(s.writers, t.writers, s.outWriterTask, s.outWriterWs, s.stopped);
      ForgettingKeepsSockets(s, t);
    } else {
      RetiringKeepsLinks(s.writers, t.writers, s.outWriterTask, s.outWriterWs, s.stopped);
      RetiringKeepsSockets(s, t);
    }
  }

  lemma FinishKeepsCore(s: State, i: nat)
    requires Core(s) && i < |s.writers|
    ensures Core(FinishWriter(s, i))
  {
    var v := s.writers[i].(queue := [], phase := Finished);
    assert FramesOk(s.writers[i]);
    assert FramesOk(v);
    FinishKeepsCompletions(s.writers, s.completions, i);
    EndKeepsWiring(s, i, v, FinishWriter(s, i));
  }

  lemma AcknowledgeKeepsCompletions(ws: seq<Writer>, cs: seq<Completion>, i: nat)
    requires CompletionsOk(ws, cs) && AllFramesOk(ws) && i < |ws| && ws[i].phase.Sending?
    ensures ws[i].phase.item.done.Some? ==> ws[i].phase.item.done.value < |cs|
    ensures CompletionsOk(ws[i := ws[i].(phase := Waiting, acked := ws[i].acked + 1)],
                          Settle(cs, ws[i].phase.item.done, Sent))
  {
    assert FramesOk(ws[i]);
    assert OwnsIts(cs, ws[i].log, i);
    assert PointsBack(cs, ws[i].log[ws[i].acked].done, i, ws[i].acked);
  }

  /** A frame other than a close has been sent; a close that waits still waits. */
  lemma AcknowledgeRetires(w: Writer)
    requires FramesOk(w) && w.phase.Sending? && !w.phase.item.frame.Close?
    ensures RetiresOne(w, w.(phase := Waiting, acked := w.acked + 1))
  {
    var v := w.(phase := Waiting, acked := w.acked + 1);
    if Leaving(w) {
      var k :| w.acked <= k < |w.log| && w.log[k].frame.Close?;
      assert v.acked <= k < |v.log| && v.log[k].frame.Close?;
    }
  }

  lemma AcknowledgeKeepsWiring(s: State, i: nat, sent: State)
    requires LinksOk(s.writers, s.outWriterTask, s.outWriterWs, s.stopped) && SocketsOk(s)
    requires AllFramesOk(s.writers)
    requires InFlightKnown(s, i) && sent == ResumeIfLow(Acknowledge(s, i)) && !s.writers[i].phase.item.frame.Close?
    ensures LinksOk(sent.writers, sent.outWriterTask, sent.outWriterWs, sent.stopped) && SocketsOk(sent)
  {
    assert FramesOk(s.writers[i]);
    AcknowledgeRetires(s.writers[i]);
    OneRetires(s.writers, i, sent.writers[i]);
    RetiringKeepsLinks(s.writers, sent.writers, s.outWriterTask, s.outWriterWs, s.stopped);
    RetiringKeepsSockets(s, sent);
  }

  lemma SentKeepsFrames(ws: seq<Writer>, i: nat)
    requires AllFramesOk(ws) && i < |ws| && ws[i].phase.Sending? && !ws[i].cancelled
    requires !ws[i].phase.item.frame.Close?
    ensures AllFramesOk(ws[i := ws[i].(phase := Waiting, acked := ws[i].acked + 1)])
  {
    assert FramesOk(ws[i]);
    assert FramesOk(ws[i].(phase := Waiting, acked := ws[i].acked + 1));
  }

  /** A writer returns in the same segment in which it acknowledges a close. */
  lemma CloseSentKeepsFrames(ws: seq<Writer>, i: nat, vs: seq<Writer>)
    requires AllFramesOk(ws) && i < |ws| && ws[i].phase.Sending?
    requires vs == ws[i := ws[i].(phase := Waiting, acked := ws[i].acked + 1)]
    ensures AllFramesOk(vs[i := vs[i].(queue := [], phase := Finished)])
  {
    assert FramesOk(ws[i]);
    assert FramesOk(vs[i].(queue := [], phase := Finished));
  }

  /** The writer after a close was sent, and after any other frame. */
  function SentWriter(w: Writer): Writer
    requires w.phase.Sending?
  {
    if w.phase.item.frame.Close? then w.(queue := [], phase := Finished, acked := w.acked + 1)
    else w.(phase := Waiting, acked := w.acked + 1)
  }

  lemma SentEffect(s: State, i: nat)
    requires InFlightKnown(s, i)
    ensures var t := AfterSent(s, i);
            var settled := Settle(s.completions, s.writers[i].phase.item.done, Sent);
            && t.writers == s.writers[i := SentWriter(s.writers[i])] && t.output == s.output
            && t.websocket == s.websocket && t.attach == s.attach && t.stopped == s.stopped
            && (if s.writers[i].phase.item.frame.Close?
                then Forgets(s, i, t) && t.completions == GiveUpAll(settled, i)
                else SameWiring(s, t) && t.completions == settled)
  {
    var sent := ResumeIfLow(Acknowledge(s, i));
    if s.writers[i].phase.item.frame.Close? {
      assert FinishWriter(sent, i).writers == sent.writers[i := sent.writers[i].(queue := [], phase := Finished)];
    }
  }

  lemma CloseSentKeepsCore(s: State, i: nat, t: State)
    requires Core(s) && InFlightKnown(s, i) && s.writers[i].phase.item.frame.Close?
    requires t.writers == s.writers[i := SentWriter(s.writers[i])] && Forgets(s, i, t)
    requires t.completions == GiveUpAll(Settle(s.completions, s.writers[i].phase.item.done, Sent), i)
    ensures Core(t)
  {
    var w := s.writers[i];
    var acked := s.writers[i := w.(phase := Waiting, acked := w.acked + 1)];
    AcknowledgeKeepsCompletions(s.writers, s.completions, i);
    FinishKeepsCompletions(acked, Settle(s.completions, w.phase.item.done, Sent), i);
    CloseSentKeepsFrames(s.writers, i, acked);
    assert t.writers == acked[i := acked[i].(queue := [], phase := Finished)];
    EndKeepsWiring(s, i, t.writers[i], t);
  }

  lemma OtherSentKeepsCore(s: State, i: nat)
    requires Core(s) && Enabled(s, WriterSent(i)) && !s.writers[i].phase.item.frame.Close?
    ensures Core(AfterSent(s, i))
  {
    AcknowledgeKeepsCompletions(s.writers, s.completions, i);
    AcknowledgeKeepsWiring(s, i, ResumeIfLow(Acknowledge(s, i)));
    SentKeepsFrames(s.writers, i);
  }

  lemma SentKeepsCore(s: State, i: nat)
    requires Core(s) && Enabled(s, WriterSent(i))
    ensures Core(AfterSent(s, i))
  {
    if s.writers[i].phase.item.frame.Close? {
      SentEffect(s, i);
      CloseSentKeepsCore(s, i, AfterSent(s, i));
    } else {
      OtherSentKeepsCore(s, i);
    }
  }

  // ---- Stopping and closing ----------------------------------------------------------------

  lemma StopKeepsCore(s: State, ws: Socket)
    requires Core(s) && TaskExists(s)
    ensures var t := StopWriter(s, ws);
            && Core(t) && SameSockets(s.writers, t.writers) && |t.writers| == |s.writers|
            && LetGo(t.writers, t.outWriterTask, ws)
            && (s.outWriterWs == Some(ws) ==> CurrentRetired(t))
            && (OnlyCurrent(s.writers, s.outWriterTask, ws) ==> OnlyCurrent(t.writers, t.outWriterTask, ws))
  {
    if s.outWriterTask.Some? && s.outWriterWs == Some(ws) {
      var t := StopWriter(s, ws);
      var i := s.outWriterTask.value;
      assert FramesOk(s.writers[i]);
      assert FramesOk(t.writers[i]);
      SameLogKeepsCompletions(s.writers, s.completions, i, t.writers[i]);
      OneRetires(s.writers, i, t.writers[i]);
      RetiringKeepsLinks(s.writers, t.writers, s.outWriterTask, s.outWriterWs, s.stopped);
      RetiringKeepsSockets(s, t);
    }
  }

  /** A direct close marks only writers the session has let go of. */
  lemma MarkKeepsWiring(s: State, ws: Socket, t: State)
    requires LinksOk(s.writers, s.outWriterTask, s.outWriterWs, s.stopped) && SocketsOk(s)
    requires LetGo(s.writers, s.outWriterTask, ws) && t == s.(writers := MarkClosed(s.writers, ws))
    ensures LinksOk(t.writers, t.outWriterTask, t.outWriterWs, t.stopped) && SocketsOk(t)
  {
    AttachedStays(s.writers, t.writers);
    forall i | 0 <= i < |s.writers| ensures Leaving(s.writers[i]) ==> Leaving(t.writers[i]) {
      assert t.writers[i].log == s.writers[i].log && t.writers[i].acked == s.writers[i].acked;
    }
  }

  lemma MarkKeepsCore(s: State, ws: Socket)
    requires Core(s) && LetGo(s.writers, s.outWriterTask, ws)
    ensures Core(s.(writers := MarkClosed(s.writers, ws)))
  {
    var t := s.(writers := MarkClosed(s.writers, ws));
    forall i | 0 <= i < |t.writers| ensures FramesOk(t.writers[i]) {
      assert FramesOk(s.writers[i]);
    }
    MarkKeepsWiring(s, ws, t);
  }

  /** Letting go of the socket is safe because its writer is stopped in the same segment. */
  lemma DropKeepsCore(s: State, ws: Socket)
    requires Core(s) && TaskExists(s) && s.websocket == Some(ws)
    ensures var t := DropSocket(s, ws);
            && Core(t) && SameSockets(s.writers, t.writers) && |t.writers| == |s.writers|
            && SocketRetired(t.writers, ws) && CurrentRetired(t)
            && t == StopWriter(s, ws).(websocket := None)
  {
    var stopped := StopWriter(s, ws);
    StopKeepsCore(s, ws);
    assert DropSocket(s, ws) == stopped.(websocket := None);
  }

  lemma StoppedKeepsCore(s: State, ws: Socket, ending: bool)
    requires Core(s) && Attached(s.writers, ws) && LetGo(s.writers, s.outWriterTask, ws)
    ensures Core(s.(stopped := s.stopped + {ws}, ending := ending))
  {
    StoppingKeepsLinks(s.writers, s.outWriterTask, s.outWriterWs, s.stopped, ws);
    LifeKeepsCore(s, s.(ending := ending));
  }

  lemma ReplacedKeepsCore(s: State)
    requires Core(s) && Enabled(s, Replaced)
    ensures Core(AfterReplaced(s))
  {
    if s.websocket.Some? {
      var ws := s.websocket.value;
      DropKeepsCore(s, ws);
      AttachedStays(s.writers, DropSocket(s, ws).writers);
      StoppedKeepsCore(DropSocket(s, ws), ws, true);
    } else {
      LifeKeepsCore(s, s.(ending := true));
    }
  }

  // ---- Attach ------------------------------------------------------------------------------

  lemma AddingKeepsLinks(ws: seq<Writer>, task: Option<nat>, owner: Option<Socket>, stopped: set<Socket>, w: Writer)
    requires LinksOk(ws, task, owner, stopped) && !Attached(ws, w.ws) && !w.phase.Finished? && !w.closeBegun
    requires task.Some? ==> Retired(ws[task.value]) || Leaving(ws[task.value])
    ensures LinksOk(ws + [w], Some(|ws|), Some(w.ws), stopped)
  {
    var vs := ws + [w];
    AttachedStays(ws, vs);
    forall i | 0 <= i < |ws| ensures ws[i].ws != w.ws {
      assert ws[i].ws == w.ws ==> Attached(ws, w.ws);
    }
  }

  lemma PublishKeepsCore(s: State, ws: Socket)
    requires Core(s) && CurrentLeaves(s) && !Attached(s.writers, ws)
    ensures Core(Publish(s, ws))
  {
    var t := Publish(s, ws);
    var w := t.writers[|s.writers|];
    assert t.writers == s.writers + [w];
    AddingKeepsLinks(s.writers, s.outWriterTask, s.outWriterWs, s.stopped, w);
    assert Attached(t.writers, ws);
  }

  lemma InstallKeepsCore(s: State, ws: Socket)
    requires Core(s) && CurrentLeaves(s) && !Attached(s.writers, ws)
    ensures Core(Install(s, ws))
  {
    PublishKeepsCore(s, ws);
    EnqueueKeepsCore(Publish(s, ws), Data(s.buffer), true);
  }

  lemma AttachBeginsKeepsCore(s: State, ws: Socket)
    requires Core(s) && Enabled(s, AttachBegins(ws))
    ensures Core(AfterAttachBegins(s, ws))
  {
    if s.websocket.None? {
      InstallKeepsCore(s, ws);
    } else {
      var previous := s.websocket.value;
      DropKeepsCore(s, previous);
      AttachedStays(s.writers, DropSocket(s, previous).writers);
      assert AfterAttachBegins(s, ws) == DropSocket(s, previous).(attach := Stopping(ws, previous));
    }
  }

  lemma AbandonKeepsCore(s: State)
    requires Core(s) && s.attach.Replaying?
    ensures Core(s.(completions := Settle(s.completions, Some(s.attach.done), Abandoned), attach := Idle))
  {
    var cs := Settle(s.completions, Some(s.attach.done), Abandoned);
    assert CompletionsOk(s.writers, cs);
    LifeKeepsCore(s, s.(attach := Idle));
  }

  /** `attach` gives its socket up, whether or not the session still shows it. */
  lemma GiveUpKeepsCore(s: State, ws: Socket)
    requires Core(s) && TaskExists(s)
    ensures Core(if s.websocket == Some(ws) then DropSocket(s, ws) else StopWriter(s, ws))
  {
    if s.websocket == Some(ws) {
      DropKeepsCore(s, ws);
    } else {
      StopKeepsCore(s, ws);
    }
  }

  lemma AttachCancelledKeepsCore(s: State)
    requires Core(s) && Enabled(s, AttachCancelled)
    ensures Core(AfterAttachCancelled(s))
  {
    match s.attach
    case Replaying(ws, done) =>
      AbandonKeepsCore(s);
      GiveUpKeepsCore(s.(completions := Settle(s.completions, Some(done), Abandoned), attach := Idle), ws);
    case ClosingOld(_, _) => LifeKeepsCore(s, s.(attach := Idle));
    case _ =>
  }

  // ---- All segments ------------------------------------------------------------------------

  /** A queued close makes the writer leave by itself. */
  lemma CloseQueued(s: State, code: int, reason: string)
    requires Core(s) && QueueExists(s)
    ensures CurrentLeaves(Enqueue(s, Close(code, reason), true))
  {
    if s.outQueue.Some? {
      var v := Enqueue(s, Close(code, reason), true).writers[s.outQueue.value];
      assert FramesOk(s.writers[s.outQueue.value]);
      assert v.log[|v.log| - 1].frame.Close?;
    }
  }

  /** The two states differ at most in the attached socket, the counter and the reader. */
  predicate SameQueues(s: State, t: State) {
    && t.writers == s.writers && t.completions == s.completions && t.stopped == s.stopped
    && t.outQueue == s.outQueue && t.outWriterTask == s.outWriterTask && t.outWriterWs == s.outWriterWs
    && t.attach == s.attach
  }

  lemma ReleaseKeepsCore(s: State, t: State)
    requires Core(s) && CurrentLeaves(s) && s.websocket.Some? && SameQueues(s, t) && t.websocket.None?
    ensures Core(t)
  {
  }

  lemma PutIgnoresSocket(s: State, t: State, i: nat, frame: Frame, wanted: bool)
    requires i < |s.writers| && SameQueues(s, t)
    ensures SameQueues(Put(s, i, frame, wanted), Put(t, i, frame, wanted))
    ensures Put(s, i, frame, wanted).websocket == s.websocket && Put(t, i, frame, wanted).websocket == t.websocket
  {
    assert NewItem(s, frame, wanted) == NewItem(t, frame, wanted);
  }

  /** Queueing does not look at the attached socket. */
  lemma EnqueueIgnoresSocket(s: State, t: State, frame: Frame, wanted: bool)
    requires QueueExists(s) && SameQueues(s, t)
    ensures QueueExists(t) && SameQueues(Enqueue(s, frame, wanted), Enqueue(t, frame, wanted))
    ensures Enqueue(s, frame, wanted).websocket == s.websocket && Enqueue(t, frame, wanted).websocket == t.websocket
  {
    if s.outQueue.Some? {
      PutIgnoresSocket(s, t, s.outQueue.value, frame, wanted);
    }
  }

  /** The socket is taken away before the frames are queued, in the same segment; the order makes
      no difference. */
  lemma FarewellKeepsCore(s: State, text: string, code: int, reason: string)
    requires Core(s) && QueueExists(s)
    ensures Core(Farewell(s, text, code, reason))
  {
    if s.websocket.Some? {
      var released := s.(websocket := None);
      EnqueueKeepsCore(s, Text(text), false);
      EnqueueIgnoresSocket(s, released, Text(text), false);
      var said := Enqueue(s, Text(text), false);
      SayKeepsCore(said, Enqueue(released, Text(text), false), code, reason);
    }
  }

  lemma SayKeepsCore(s: State, t: State, code: int, reason: string)
    requires Core(s) && s.websocket.Some? && t.websocket.None? && SameQueues(s, t) && QueueExists(s)
    ensures QueueExists(t) && Core(Enqueue(t, Close(code, reason), true))
  {
    EnqueueKeepsCore(s, Close(code, reason), true);
    CloseQueued(s, code, reason);
    EnqueueIgnoresSocket(s, t, Close(code, reason), true);
    ReleaseKeepsCore(Enqueue(s, Close(code, reason), true), Enqueue(t, Close(code, reason), true));
  }

  lemma ChildExitsKeepsCore(s: State, text: string, reason: string)
    requires Core(s) && QueueExists(s)
    ensures Core(AfterChildExits(s, text, reason))
  {
    var dead := CleanupFd(s.(alive := false));
    LifeKeepsCore(s, dead);
    FarewellKeepsCore(dead, text, 1000, reason);
  }

  lemma ReadKeepsCore(s: State, result: ReadResult)
    requires Core(s) && QueueExists(s)
    ensures Core(AfterPtyReadable(s, result))
  {
    match result
    case WouldBlock =>
    case EndOfFile => LifeKeepsCore(s, AfterPtyReadable(s, result));
    case Chunk(data) =>
      var read := s.(output := s.output + data, buffer := Last(s.buffer + data, BUFFER_LIMIT));
      LifeKeepsCore(s, read);
      EnqueueKeepsCore(read, Data(data), false);
  }

  lemma CloseTimesOutKeepsCore(s: State, ws: Socket)
    requires Core(s) && TaskExists(s) && Attached(s.writers, ws)
    ensures Core(StopWriter(s, ws).(stopped := s.stopped + {ws}))
  {
    StopKeepsCore(s, ws);
    AttachedStays(s.writers, StopWriter(s, ws).writers);
    StoppedKeepsCore(StopWriter(s, ws), ws, s.ending);
  }

  lemma AttachClosesOldKeepsCore(s: State)
    requires Core(s) && Enabled(s, AttachClosesOld)
    ensures Core(Next(s, AttachClosesOld))
  {
    var marked := s.(writers := MarkClosed(s.writers, s.attach.previous));
    MarkKeepsCore(s, s.attach.previous);
    assert SocketsOk(marked.(attach := ClosingOld(s.attach.ws, s.attach.previous)));
  }

  lemma AttachStepKeepsCore(s: State, step: Step)
    requires Core(s) && Enabled(s, step)
    requires step.AttachBegins? || step.AttachClosesOld? || step.AttachInstalls? || step.AttachReturns? || step.AttachCancelled?
    ensures Core(Next(s, step))
  {
    match step
    case AttachBegins(ws) => AttachBeginsKeepsCore(s, ws);
    case AttachClosesOld => AttachClosesOldKeepsCore(s);
    case AttachInstalls => InstallKeepsCore(s, s.attach.ws);
    case AttachReturns => LifeKeepsCore(s, Next(s, step));
    case AttachCancelled => AttachCancelledKeepsCore(s);
  }

  lemma EndStepKeepsCore(s: State, step: Step)
    requires Core(s) && Enabled(s, step)
    requires step.ChildExits? || step.EndNotifies? || step.Replaced? || step.EndCancelled?
             || step.TerminateBegins? || step.TerminateEnds?
    ensures Core(Next(s, step))
  {
    match step
    case ChildExits(text, reason) => ChildExitsKeepsCore(s, text, reason);
    case EndNotifies(text, code, reason) =>
      LifeKeepsCore(s, s.(ending := true));
      FarewellKeepsCore(s.(ending := true), text, code, reason);
    case Replaced => ReplacedKeepsCore(s);
    case EndCancelled => LifeKeepsCore(s, Next(s, step));
    case TerminateBegins => LifeKeepsCore(s, Next(s, step));
    case TerminateEnds => LifeKeepsCore(s, Next(s, step));
  }

  lemma StepKeepsCore(s: State, step: Step)
    requires Core(s) && Enabled(s, step)
    ensures Core(Next(s, step))
  {
    match step
    case PtyReadable(result) => ReadKeepsCore(s, result);
    case WriterTakes(i) => TakeKeepsCore(s, i);
    case WriterSent(i) => SentKeepsCore(s, i);
    case WriterFails(i) => FinishKeepsCore(s, i);
    case Detaches(ws) => if s.websocket == Some(ws) { DropKeepsCore(s, ws); }
    case SendsStatus(text) => EnqueueKeepsCore(s, Text(text), false);
    case ClosesAttached(ws, code, reason) =>
      if s.outWriterWs == Some(ws) {
        EnqueueKeepsCore(s, Close(code, reason), true);
      } else {
        MarkKeepsCore(s, ws);
      }
    case CloseTimesOut(ws) => CloseTimesOutKeepsCore(s, ws);
    case ClosesDirectly(ws) => MarkKeepsCore(s, ws);
    case _ =>
      if step.AttachBegins? || step.AttachClosesOld? || step.AttachInstalls? || step.AttachReturns? || step.AttachCancelled? {
        AttachStepKeepsCore(s, step);
      } else {
        EndStepKeepsCore(s, step);
      }
  }
}
