/** What no segment ever takes back: frames queued and sent, closes begun, futures resolved. */
module OutboundHistory {
  import opened Common
  import opened OutboundModel
  import opened OutboundInvariant
  import opened OutboundCore

  /** It will begin no further frame. */
  predicate Quiet(w: Writer) {
    Retired(w) || Closing(w)
  }

  /** The history of a writer only grows; a quiet writer begins nothing more. */
  ghost predicate WriterGrows(w: Writer, v: Writer) {
    && v.ws == w.ws && v.start == w.start && v.replay == w.replay
    && w.log <= v.log && w.begun <= v.begun && w.acked <= v.acked
    && (Quiet(w) ==> Quiet(v) && v.begun == w.begun) && (Retired(w) ==> Retired(v))
    && (w.phase.Finished? ==> v.phase.Finished?)
    && (w.closeBegun ==> v.closeBegun)
  }

  ghost predicate WritersGrow(ws: seq<Writer>, vs: seq<Writer>) {
    |ws| <= |vs| && forall i :: 0 <= i < |ws| ==> WriterGrows(ws[i], vs[i])
  }

  /** A future keeps its frame, and its outcome once it has one. */
  predicate CompletionGrows(c: Completion, d: Completion) {
    d.writer == c.writer && d.index == c.index && (!c.outcome.Pending? ==> d == c)
  }

  predicate CompletionsGrow(cs: seq<Completion>, ds: seq<Completion>) {
    |cs| <= |ds| && forall f :: 0 <= f < |cs| ==> CompletionGrows(cs[f], ds[f])
  }

  ghost predicate Grows(s: State, t: State) {
    && WritersGrow(s.writers, t.writers)
    && CompletionsGrow(s.completions, t.completions)
    && s.output <= t.output
  }

  lemma GrowsIsTransitive(s: State, t: State, u: State)
    requires Grows(s, t) && Grows(t, u)
    ensures Grows(s, u)
  {
    forall i | 0 <= i < |s.writers| ensures WriterGrows(s.writers[i], u.writers[i]) {
      assert WriterGrows(s.writers[i], t.writers[i]) && WriterGrows(t.writers[i], u.writers[i]);
    }
    forall f | 0 <= f < |s.completions| ensures CompletionGrows(s.completions[f], u.completions[f]) {
      assert CompletionGrows(s.completions[f], t.completions[f]);
      assert CompletionGrows(t.completions[f], u.completions[f]);
    }
  }

  lemma SameGrows(s: State, t: State)
    requires t.writers == s.writers && CompletionsGrow(s.completions, t.completions) && s.output <= t.output
    ensures Grows(s, t)
  {
  }

  lemma OneWriterGrows(s: State, i: nat, v: Writer, t: State)
    requires i < |s.writers| && WriterGrows(s.writers[i], v)
    requires t.writers == s.writers[i := v]
    requires CompletionsGrow(s.completions, t.completions) && s.output <= t.output
    ensures Grows(s, t)
  {
  }

  lemma PutGrows(s: State, i: nat, frame: Frame, wanted: bool)
    requires i < |s.writers|
    ensures Grows(s, Put(s, i, frame, wanted))
  {
    OneWriterGrows(s, i, Push(s.writers[i], NewItem(s, frame, wanted)), Put(s, i, frame, wanted));
  }

  lemma EnqueueGrows(s: State, frame: Frame, wanted: bool)
    requires QueueExists(s)
    ensures Grows(s, Enqueue(s, frame, wanted))
  {
    if s.outQueue.Some? {
      PutGrows(s, s.outQueue.value, frame, wanted);
    } else {
      SameGrows(s, s);
    }
  }

  lemma FinishGrows(s: State, i: nat)
    requires i < |s.writers|
    ensures Grows(s, FinishWriter(s, i))
  {
    OneWriterGrows(s, i, s.writers[i].(queue := [], phase := Finished), FinishWriter(s, i));
  }

  lemma SentGrows(s: State, i: nat)
    requires InFlightKnown(s, i)
    ensures Grows(s, AfterSent(s, i))
  {
    SentEffect(s, i);
    OneWriterGrows(s, i, SentWriter(s.writers[i]), AfterSent(s, i));
  }

  lemma StopGrows(s: State, ws: Socket)
    requires TaskExists(s)
    ensures Grows(s, StopWriter(s, ws))
  {
    if s.outWriterTask.Some? && s.outWriterWs == Some(ws) {
      var i := s.outWriterTask.value;
      OneWriterGrows(s, i, s.writers[i].(cancelled := true), StopWriter(s, ws));
    } else {
      SameGrows(s, s);
    }
  }

  lemma DropGrows(s: State, ws: Socket)
    requires TaskExists(s)
    ensures Grows(s, DropSocket(s, ws))
  {
    StopGrows(s.(websocket := None), ws);
    SameGrows(s, s);
  }

  lemma MarkGrows(s: State, ws: Socket)
    ensures Grows(s, s.(writers := MarkClosed(s.writers, ws)))
  {
  }

  lemma InstallGrows(s: State, ws: Socket)
    ensures Grows(s, Install(s, ws))
  {
    var published := Publish(s, ws);
    assert Grows(s, published);
    EnqueueGrows(published, Data(s.buffer), true);
    GrowsIsTransitive(s, published, Enqueue(published, Data(s.buffer), true));
  }

  lemma EnqueueTwiceGrows(s: State, first: Frame, second: Frame)
    requires QueueExists(s) && QueueExists(Enqueue(s, first, false))
    ensures Grows(s, Enqueue(Enqueue(s, first, false), second, true))
  {
    var mid := Enqueue(s, first, false);
    EnqueueGrows(s, first, false);
    EnqueueGrows(mid, second, true);
    GrowsIsTransitive(s, mid, Enqueue(mid, second, true));
  }

  lemma FarewellGrows(s: State, text: string, code: int, reason: string)
    requires QueueExists(s)
    ensures Grows(s, Farewell(s, text, code, reason))
  {
    if s.websocket.Some? {
      EnqueueTwiceGrows(s.(websocket := None), Text(text), Close(code, reason));
    } else {
      SameGrows(s, s);
    }
  }

  lemma GiveUpGrows(s: State, ws: Socket)
    requires TaskExists(s)
    ensures Grows(s, if s.websocket == Some(ws) then DropSocket(s, ws) else StopWriter(s, ws))
  {
    if s.websocket == Some(ws) {
      DropGrows(s, ws);
    } else {
      StopGrows(s, ws);
    }
  }

  lemma CancelGrows(s: State)
    requires Enabled(s, AttachCancelled)
    ensures Grows(s, AfterAttachCancelled(s))
  {
    if s.attach.Replaying? {
      var abandoned := s.(completions := Settle(s.completions, Some(s.attach.done), Abandoned), attach := Idle);
      SameGrows(s, abandoned);
      GiveUpGrows(abandoned, s.attach.ws);
      GrowsIsTransitive(s, abandoned, AfterAttachCancelled(s));
    } else {
      SameGrows(s, AfterAttachCancelled(s));
    }
  }

  lemma ReadGrows(s: State, result: ReadResult)
    requires QueueExists(s)
    ensures Grows(s, AfterPtyReadable(s, result))
  {
    if result.Chunk? {
      var read := s.(output := s.output + result.data, buffer := Last(s.buffer + result.data, BUFFER_LIMIT));
      SameGrows(s, read);
      EnqueueGrows(read, Data(result.data), false);
      GrowsIsTransitive(s, read, Enqueue(read, Data(result.data), false));
    }
  }

  lemma TakeGrows(s: State, i: nat)
    requires AllFramesOk(s.writers) && Enabled(s, WriterTakes(i))
    ensures Grows(s, AfterTake(s, i))
  {
    assert FramesOk(s.writers[i]);
    OneWriterGrows(s, i, AfterTake(s, i).writers[i], AfterTake(s, i));
  }

  lemma AttachBeginsGrows(s: State, ws: Socket)
    requires TaskExists(s)
    ensures Grows(s, AfterAttachBegins(s, ws))
  {
    if s.websocket.None? {
      InstallGrows(s, ws);
    } else {
      DropGrows(s, s.websocket.value);
    }
  }

  lemma CloseGrows(s: State, ws: Socket, code: int, reason: string)
    requires QueueExists(s)
    ensures Grows(s, AfterClosesAttached(s, ws, code, reason))
  {
    if s.outWriterWs == Some(ws) {
      EnqueueGrows(s, Close(code, reason), true);
    } else {
      MarkGrows(s, ws);
    }
  }

  lemma ReplacedGrows(s: State)
    requires TaskExists(s)
    ensures Grows(s, AfterReplaced(s))
  {
    if s.websocket.Some? {
      DropGrows(s, s.websocket.value);
    } else {
      SameGrows(s, AfterReplaced(s));
    }
  }

  lemma EndStepGrows(s: State, step: Step)
    requires AllFramesOk(s.writers) && Enabled(s, step)
    requires step.ChildExits? || step.EndNotifies? || step.Replaced? || step.EndCancelled?
             || step.TerminateBegins? || step.TerminateEnds?
    ensures Grows(s, Next(s, step))
  {
    match step
    case ChildExits(text, reason) => FarewellGrows(CleanupFd(s.(alive := false)), text, 1000, reason);
    case EndNotifies(text, code, reason) => FarewellGrows(s.(ending := true), text, code, reason);
    case Replaced => ReplacedGrows(s);
    case EndCancelled => SameGrows(s, Next(s, step));
    case TerminateBegins => SameGrows(s, Next(s, step));
    case TerminateEnds => SameGrows(s, Next(s, step));
  }

  lemma AttachStepGrows(s: State, step: Step)
    requires AllFramesOk(s.writers) && Enabled(s, step)
    requires step.AttachBegins? || step.AttachClosesOld? || step.AttachInstalls? || step.AttachReturns? || step.AttachCancelled?
    ensures Grows(s, Next(s, step))
  {
    match step
    case AttachBegins(ws) => AttachBeginsGrows(s, ws);
    case AttachClosesOld => MarkGrows(s, s.attach.previous);
    case AttachInstalls => InstallGrows(s, s.attach.ws);
    case AttachReturns => SameGrows(s, Next(s, step));
    case AttachCancelled => CancelGrows(s);
  }

  lemma StepGrows(s: State, step: Step)
    requires AllFramesOk(s.writers) && Enabled(s, step)
    ensures Grows(s, Next(s, step))
  {
    match step
    case PtyReadable(result) => ReadGrows(s, result);
    case WriterTakes(i) => TakeGrows(s, i);
    case WriterSent(i) => SentGrows(s, i);
    case WriterFails(i) => FinishGrows(s, i);
    case Detaches(ws) => DropGrows(s, ws);
    case SendsStatus(text) => EnqueueGrows(s, Text(text), false);
    case ClosesAttached(ws, code, reason) => CloseGrows(s, ws, code, reason);
    case CloseTimesOut(ws) => StopGrows(s, ws);
    case ClosesDirectly(ws) => MarkGrows(s, ws);
    case _ =>
      if step.AttachBegins? || step.AttachClosesOld? || step.AttachInstalls? || step.AttachReturns? || step.AttachCancelled? {
        AttachStepGrows(s, step);
      } else {
        EndStepGrows(s, step);
      }
  }

  lemma {:induction false} RunGrows(s: State, steps: seq<Step>, t: State)
    requires Core(s) && Run(s, steps, t)
    ensures Grows(s, t)
    decreases |steps|
  {
    if steps == [] {
      SameGrows(s, s);
    } else {
      StepGrows(s, steps[0]);
      StepKeepsCore(s, steps[0]);
      RunGrows(Next(s, steps[0]), steps[1..], t);
      GrowsIsTransitive(s, Next(s, steps[0]), t);
    }
  }
}
