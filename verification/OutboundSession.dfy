/** `Session` as the source writes it: fields updated in place, one method per segment.
    Each method's postcondition names the step of the model that the segment is. */
module OutboundSession {
  import opened Common
  import opened OutboundModel
  import opened OutboundSums
  import opened OutboundInvariant
  import opened OutboundCore
  import opened OutboundFlow
  import opened OutboundSteps

  /** Futures of one writer given up for the frames before position `n` of its log. */
  function GiveUpBefore(cs: seq<Completion>, writer: nat, n: nat): (r: seq<Completion>)
    ensures |r| == |cs|
  {
    seq(|cs|, f requires 0 <= f < |cs| => if cs[f].index < n then GiveUp(cs[f], writer) else cs[f])
  }

  /** Popping one frame and failing its future moves the boundary by one. */
  lemma GiveUpNext(ws: seq<Writer>, cs: seq<Completion>, i: nat, n: nat)
    requires CompletionsOk(ws, cs) && i < |ws| && n < |ws[i].log|
    ensures ws[i].log[n].done.Some? ==> ws[i].log[n].done.value < |cs|
    ensures Settle(GiveUpBefore(cs, i, n), ws[i].log[n].done, Unsent) == GiveUpBefore(cs, i, n + 1)
  {
    var done := ws[i].log[n].done;
    assert OwnsIts(cs, ws[i].log, i) && PointsBack(cs, done, i, n);
    var settled := Settle(GiveUpBefore(cs, i, n), done, Unsent);
    forall f | 0 <= f < |cs| ensures settled[f] == GiveUpBefore(cs, i, n + 1)[f] {
      assert CompletionOk(ws[cs[f].writer], cs[f], f);
    }
  }

  /** Before the first frame that was not acknowledged there is nothing to give up, after
      the last frame of the log there is nothing left. */
  lemma GiveUpEnds(ws: seq<Writer>, cs: seq<Completion>, i: nat)
    requires CompletionsOk(ws, cs) && i < |ws|
    ensures GiveUpBefore(cs, i, ws[i].acked) == cs
    ensures GiveUpBefore(cs, i, |ws[i].log|) == GiveUpAll(cs, i)
  {
    forall f | 0 <= f < |cs|
      ensures GiveUpBefore(cs, i, ws[i].acked)[f] == cs[f]
      ensures GiveUpBefore(cs, i, |ws[i].log|)[f] == GiveUpAll(cs, i)[f]
    {
      assert CompletionOk(ws[cs[f].writer], cs[f], f);
    }
  }

  /** Checking the low mark once more after more bytes have left changes nothing. */
  lemma CheckedTwice(drained: State, reader: Reader, first: int)
    requires drained.pendingBytes <= first
    requires reader == drained.reader || reader == ResumeAt(drained.reader, CanRead(drained), first)
    ensures ResumeIfLow(drained.(reader := reader)) == ResumeIfLow(drained)
  {
  }

  predicate IsRouteStep(step: Step) {
    || step.AttachBegins? || step.AttachClosesOld? || step.AttachInstalls? || step.AttachReturns?
    || step.AttachCancelled? || step.Detaches? || step.SendsStatus?
  }

  class Session {
    var buffer: seq<byte>
    var websocket: Option<Socket>
    var outQueue: Option<nat>
    var outWriterTask: Option<nat>
    var outWriterWs: Option<Socket>
    var pendingBytes: int
    var alive: bool
    var terminating: bool
    var fdOpen: bool
    var readerRegistered: bool
    var readerPaused: bool
    var exitScheduled: bool
    var writers: seq<Writer>           // the writer tasks and their queues
    var completions: seq<Completion>
    var output: seq<byte>              // trace: everything read so far
    var attaching: Attach              // where the running `attach` is suspended
    var ending: bool
    var stopped: set<Socket>

    ghost function Snapshot(): State
      reads this
    {
      State(output, buffer, websocket, outQueue, outWriterTask, outWriterWs, pendingBytes,
            writers, completions, attaching, alive, terminating, ending, fdOpen,
            ReaderFields(), exitScheduled, stopped)
    }

    ghost function ReaderFields(): Reader
      reads this`readerRegistered, this`readerPaused
    {
      Reader(readerRegistered, readerPaused)
    }

    ghost predicate Valid()
      reads this
    {
      Inv(Snapshot())
    }

    /** The session right after `spawn`. */
    constructor ()
      ensures Snapshot() == Spawned() && Valid()
    {
      buffer, websocket, outQueue, outWriterTask, outWriterWs := [], None, None, None, None;
      pendingBytes, alive, terminating, fdOpen := 0, true, false, true;
      readerRegistered, readerPaused, exitScheduled := true, false, false;
      writers, completions := [], [];
      output, attaching, ending, stopped := [], Idle, false, {};
      new;
      SpawnedInv();
    }

    method PausePtyReader()
      modifies this`readerRegistered, this`readerPaused
      ensures ReaderFields() == Pause(old(ReaderFields()), fdOpen)
    {
      if readerPaused || !fdOpen {
        return;
      }
      if readerRegistered {
        readerRegistered := false;
      }
      readerPaused := true;
    }

    method ResumePtyReader()
      modifies this`readerRegistered, this`readerPaused
      ensures ReaderFields() == Resume(old(ReaderFields()), alive && !terminating && fdOpen)
    {
      if !readerPaused {
        return;
      }
      if alive && !terminating && fdOpen {
        readerRegistered := true;
      }
      readerPaused := false;
    }

    /** Charge the frame's payload and put the frame into queue `i`. */
    method PutFrame(i: nat, frame: Frame, wanted: bool) returns (done: Option<nat>)
      requires i < |writers|
      modifies this`pendingBytes, this`writers, this`completions
      ensures Snapshot() == Put(old(Snapshot()), i, frame, wanted)
      ensures done == if wanted then Some(old(|completions|)) else None
    {
      done := None;
      if wanted {
        done := Some(|completions|);
        completions := completions + [Completion(i, |writers[i].log|, Pending)];
      } else {
        assert completions + [] == completions;
      }
      if frame.Data? {
        pendingBytes := pendingBytes + |frame.bytes|;
      }
      writers := writers[i := Push(writers[i], Item(frame, done))];
    }

    method EnqueueOutbound(frame: Frame, wanted: bool) returns (done: Option<nat>)
      requires QueueExists(Snapshot())
      modifies this`pendingBytes, this`writers, this`completions, this`readerRegistered, this`readerPaused
      ensures Snapshot() == Enqueue(old(Snapshot()), frame, wanted)
      ensures done == if wanted && outQueue.Some? then Some(old(|completions|)) else None
    {
      if outQueue.None? {
        return None;
      }
      done := PutFrame(outQueue.value, frame, wanted);
      if frame.Data? && pendingBytes >= OUTPUT_HIGH_WATERMARK {
        PausePtyReader();
      }
    }

    method AppendOutput(data: seq<byte>)
      modifies this`output, this`buffer
      ensures Snapshot() == Grown(old(Snapshot()), data)
    {
      output := output + data;
      buffer := buffer + data;
      if |buffer| > BUFFER_LIMIT {
        buffer := buffer[|buffer| - BUFFER_LIMIT..];
      }
    }

    method OnPtyReadable(result: ReadResult)
      requires QueueExists(Snapshot())
      modifies this
      ensures Snapshot() == AfterPtyReadable(old(Snapshot()), result)
    {
      match result
      case WouldBlock =>
      case EndOfFile =>
        if readerRegistered && fdOpen {
          readerRegistered := false;
        }
        exitScheduled := true;
      case Chunk(data) =>
        AppendOutput(data);
        if websocket.Some? {
          var _ := EnqueueOutbound(Data(data), false);
        }
    }

    // -- The writer task, one method per segment -----------------------------------------

    /** `done.set_result(outcome)` unless the future is already done. */
    method SetResult(done: Option<nat>, outcome: Outcome)
      requires done.Some? ==> done.value < |completions|
      modifies this`completions
      ensures completions == Settle(old(completions), done, outcome)
    {
      if done.Some? && completions[done.value].outcome.Pending? {
        completions := completions[done.value := completions[done.value].(outcome := outcome)];
      }
    }

    /** `current = await queue.get()`, and the send begins. */
    method WriterTake(i: nat)
      requires i < |writers| && |writers[i].queue| > 0
      modifies this`writers
      ensures Snapshot() == AfterTake(old(Snapshot()), i)
    {
      var w := writers[i];
      var current := w.queue[0];
      writers := writers[i := w.(queue := w.queue[1..], phase := Sending(current),
                                 begun := w.begun + 1,
                                 closeBegun := w.closeBegun || current.frame.Close?)];
    }

    /** The inner `finally`: uncharge the frame, perhaps resume, resolve its future. */
    method Uncharge(item: Item, outcome: Outcome)
      requires item.done.Some? ==> item.done.value < |completions|
      modifies this`pendingBytes, this`completions, this`readerRegistered, this`readerPaused
      ensures pendingBytes == old(pendingBytes) - Size(item)
      ensures completions == Settle(old(completions), item.done, outcome)
      ensures ReaderFields() ==
              if item.frame.Data?
              then ResumeAt(old(ReaderFields()), alive && !terminating && fdOpen, pendingBytes)
              else old(ReaderFields())
    {
      if item.frame.Data? {
        pendingBytes := pendingBytes - |item.frame.bytes|;
        if pendingBytes <= OUTPUT_LOW_WATERMARK {
          ResumePtyReader();
        }
      }
      SetResult(item.done, outcome);
    }

    /** The drain loop of the outer `finally`. The frames before position `n` of the log are
        dealt with; `cs` are the futures as they were when the in-flight frame was begun. */
    method DrainQueue(i: nat, ghost n: nat, ghost cs: seq<Completion>)
      requires i < |writers| && CompletionsOk(writers, cs)
      requires n <= |writers[i].log| && writers[i].queue == writers[i].log[n..]
      requires completions == GiveUpBefore(cs, i, n)
      modifies this`pendingBytes, this`completions, this`writers
      ensures pendingBytes == old(pendingBytes) - SizeOf(old(writers[i].queue))
      ensures completions == GiveUpAll(cs, i)
      ensures writers == old(writers)[i := old(writers)[i].(queue := [], phase := Finished)]
    {
      ghost var all := writers;
      ghost var log := writers[i].log;
      var queue := writers[i].queue;
      ghost var k: nat := n;
      while |queue| > 0
        invariant k <= |log| && queue == log[k..] && writers == all
        invariant pendingBytes == old(pendingBytes) - SizeOf(all[i].queue) + SizeOf(queue)
        invariant completions == GiveUpBefore(cs, i, k)
        decreases |queue|
      {
        GiveUpNext(all, cs, i, k);
        SizeOfFirst(queue);
        var pending := queue[0];
        queue := queue[1..];
        if pending.frame.Data? {
          pendingBytes := pendingBytes - |pending.frame.bytes|;
        }
        SetResult(pending.done, Unsent);
        k := k + 1;
      }
      writers := writers[i := writers[i].(queue := [], phase := Finished)];
      GiveUpEnds(all, cs, i);
    }

    method ResumeBelowMark()
      modifies this`readerRegistered, this`readerPaused
      ensures Snapshot() == ResumeIfLow(old(Snapshot()))
    {
      if pendingBytes <= OUTPUT_LOW_WATERMARK {
        ResumePtyReader();
      }
    }

    /** A writer clears the session's fields only if they are still its own. */
    method ForgetWriter(i: nat)
      modifies this`outQueue, this`outWriterTask, this`outWriterWs
      ensures Snapshot() == Forget(old(Snapshot()), i)
    {
      if outWriterTask == Some(i) {
        outQueue, outWriterTask, outWriterWs := None, None, None;
      }
    }

    /** The outer `finally` of a writer with nothing in flight. */
    method WriterReturns(i: nat)
      requires i < |writers| && CompletionsOk(writers, completions) && writers[i].phase.Waiting?
      requires writers[i].acked <= |writers[i].log| && writers[i].queue == writers[i].log[writers[i].acked..]
      modifies this
      ensures Snapshot() == FinishWriter(old(Snapshot()), i)
    {
      GiveUpEnds(writers, completions, i);
      DrainQueue(i, writers[i].acked, completions);
      assert Snapshot() == Drain(old(Snapshot()), i);
      ResumeBelowMark();
      ForgetWriter(i);
    }

    /** The acknowledgement of one frame, as far as the end of the inner `finally`. */
    method WriterAcknowledges(i: nat)
      requires InFlightKnown(Snapshot(), i) && ReaderOk(Snapshot())
      modifies this`pendingBytes, this`completions, this`readerRegistered, this`readerPaused, this`writers
      ensures Snapshot() == ResumeIfLow(Acknowledge(old(Snapshot()), i))
    {
      var w := writers[i];
      Uncharge(w.phase.item, Sent);
      writers := writers[i := w.(phase := Waiting, acked := w.acked + 1)];
    }

    /** A send that returned; after a close the writer returns as well. */
    method WriterSent(i: nat)
      requires Core(Snapshot()) && ReaderOk(Snapshot()) && InFlightKnown(Snapshot(), i)
      modifies this
      ensures Snapshot() == AfterSent(old(Snapshot()), i)
    {
      var item := writers[i].phase.item;
      assert FramesOk(writers[i]);
      AcknowledgeKeepsCompletions(writers, completions, i);
      WriterAcknowledges(i);
      if item.frame.Close? {
        WriterReturns(i);
      }
    }

    /** Both `finally` blocks of a writer whose send did not return, up to the last check. */
    method AbortDrains(i: nat)
      requires Core(Snapshot()) && i < |writers| && writers[i].phase.Sending?
      modifies this`pendingBytes, this`completions, this`readerRegistered, this`readerPaused, this`writers
      ensures var drained := Drain(old(Snapshot()), i);
              && writers == drained.writers && completions == drained.completions
              && pendingBytes == drained.pendingBytes <= old(pendingBytes) - Size(old(writers[i].phase.item))
      ensures ReaderFields() ==
              if old(writers[i].phase.item).frame.Data?
              then ResumeAt(old(ReaderFields()), alive && !terminating && fdOpen,
                            old(pendingBytes) - Size(old(writers[i].phase.item)))
              else old(ReaderFields())
    {
      var w := writers[i];
      ghost var cs := completions;
      assert FramesOk(w);
      GiveUpEnds(writers, cs, i);
      GiveUpNext(writers, cs, i, w.acked);
      Uncharge(w.phase.item, Unsent);
      DrainQueue(i, w.begun, cs);
    }

    /** The same, seen from the whole session. */
    method AbortGivesUp(i: nat)
      requires Core(Snapshot()) && i < |writers| && writers[i].phase.Sending?
      modifies this`pendingBytes, this`completions, this`readerRegistered, this`readerPaused, this`writers
      ensures Snapshot() == Drain(old(Snapshot()), i).(reader := ReaderFields())
      ensures pendingBytes <= old(pendingBytes) - Size(old(writers[i].phase.item))
      ensures ReaderFields() ==
              if old(writers[i].phase.item).frame.Data?
              then ResumeAt(old(ReaderFields()), alive && !terminating && fdOpen,
                            old(pendingBytes) - Size(old(writers[i].phase.item)))
              else old(ReaderFields())
    {
      AbortDrains(i);
    }

    /** A send that raised or was cancelled: both `finally` blocks run in one segment. */
    method WriterAborts(i: nat)
      requires Core(Snapshot()) && i < |writers| && writers[i].phase.Sending?
      modifies this
      ensures Snapshot() == FinishWriter(old(Snapshot()), i)
    {
      ghost var drained := Drain(Snapshot(), i);
      ghost var first := pendingBytes - Size(writers[i].phase.item);
      AbortGivesUp(i);
      CheckedTwice(drained, ReaderFields(), first);
      ResumeBelowMark();
      ForgetWriter(i);
    }

    // -- Attach, detach and close ----------------------------------------------------------

    /** `task.cancel()`, if the session's writer serves this socket. */
    method StopOutboundWriter(ws: Socket)
      requires TaskExists(Snapshot())
      modifies this`writers
      ensures Snapshot() == StopWriter(old(Snapshot()), ws)
    {
      if outWriterTask.None? || outWriterWs != Some(ws) {
        return;
      }
      var i := outWriterTask.value;
      writers := writers[i := writers[i].(cancelled := true)];
    }

    method StartWriter(ws: Socket)
      modifies this`writers
      ensures Snapshot() == old(Snapshot()).(writers := writers)
      ensures writers == Publish(old(Snapshot()), ws).writers
    {
      writers := writers + [Writer(ws, [], Waiting, false, [], 0, 0, false, buffer, |output|)];
    }

    /** The session takes the newest writer as its own. */
    method AdoptWriter(i: nat, ws: Socket)
      modifies this`websocket, this`outQueue, this`outWriterTask, this`outWriterWs, this`attaching
      ensures Snapshot() == old(Snapshot()).(websocket := Some(ws), outQueue := Some(i),
                outWriterTask := Some(i), outWriterWs := Some(ws), attach := Idle)
    {
      websocket := Some(ws);
      outQueue, outWriterTask, outWriterWs := Some(i), Some(i), Some(ws);
      attaching := Idle;
    }

    method PublishSocket(ws: Socket)
      modifies this`websocket, this`outQueue, this`outWriterTask, this`outWriterWs, this`writers, this`attaching
      ensures Snapshot() == Publish(old(Snapshot()), ws)
    {
      var i := |writers|;
      StartWriter(ws);
      AdoptWriter(i, ws);
    }

    method InstallSocket(ws: Socket)
      modifies this
      ensures Snapshot() == Install(old(Snapshot()), ws)
    {
      PublishSocket(ws);
      if buffer != [] {
        var done := EnqueueOutbound(Data(buffer), true);
        attaching := Replaying(ws, done.value);
      }
    }

    method AttachBegin(ws: Socket)
      requires TaskExists(Snapshot())
      modifies this
      ensures Snapshot() == AfterAttachBegins(old(Snapshot()), ws)
    {
      if websocket.Some? {
        var previous := websocket.value;
        websocket := None;
        StopOutboundWriter(previous);
        attaching := Stopping(ws, previous);
      } else {
        InstallSocket(ws);
      }
    }

    method ReleaseSocket(ws: Socket)
      requires TaskExists(Snapshot())
      modifies this`websocket, this`writers
      ensures Snapshot() == DropSocket(old(Snapshot()), ws)
    {
      if websocket != Some(ws) {
        return;
      }
      websocket := None;
      StopOutboundWriter(ws);
    }

    /** The last text and the close a socket is sent when its session goes away. */
    method SayFarewell(text: string, code: int, reason: string)
      requires QueueExists(Snapshot())
      modifies this
      ensures Snapshot() == Farewell(old(Snapshot()), text, code, reason)
    {
      var ws := websocket;
      websocket := None;
      if ws.Some? {
        var _ := EnqueueOutbound(Text(text), false);
        var _ := EnqueueOutbound(Close(code, reason), true);
      }
    }

    method CleanupMaster()
      modifies this`fdOpen, this`readerRegistered, this`readerPaused
      ensures Snapshot() == CleanupFd(old(Snapshot()))
    {
      if fdOpen {
        if readerRegistered {
          readerRegistered := false;
        }
        readerPaused := false;
        fdOpen := false;
      }
    }

    /** The first segment of `_handle_exit`. */
    method HandleExit(text: string, reason: string)
      requires QueueExists(Snapshot())
      modifies this
      ensures Snapshot() == AfterChildExits(old(Snapshot()), text, reason)
    {
      alive := false;
      CleanupMaster();
      SayFarewell(text, 1000, reason);
    }

    /** `_wait_outbound_close` and `close_attached`: through the writer if it serves `ws`. */
    method CloseAttached(ws: Socket, code: int, reason: string)
      requires QueueExists(Snapshot())
      modifies this
      ensures Snapshot() == AfterClosesAttached(old(Snapshot()), ws, code, reason)
    {
      if outWriterWs == Some(ws) {
        var _ := EnqueueOutbound(Close(code, reason), true);
      } else {
        writers := MarkClosed(writers, ws);
      }
    }

    /** A cancelled `attach`: abandon the replay future, let go of the socket. */
    method CancelAttach()
      requires TaskExists(Snapshot()) && (attaching.Replaying? ==> attaching.done < |completions|)
      modifies this`completions, this`attaching, this`websocket, this`writers
      ensures Snapshot() == AfterAttachCancelled(old(Snapshot()))
    {
      match attaching
      case Replaying(ws, done) =>
        SetResult(Some(done), Abandoned);
        attaching := Idle;
        if websocket == Some(ws) {
          ReleaseSocket(ws);
        } else {
          StopOutboundWriter(ws);
        }
      case ClosingOld(_, _) => attaching := Idle;
      case _ =>
    }

    /** `start_locked` takes the socket of the session it is about to replace. */
    method TakeSocketForReplacement()
      requires TaskExists(Snapshot())
      modifies this`ending, this`stopped, this`websocket, this`writers
      ensures Snapshot() == AfterReplaced(old(Snapshot()))
    {
      if websocket.Some? {
        var ws := websocket.value;
        ReleaseSocket(ws);
        stopped := stopped + {ws};
      }
      ending := true;
    }

    method CloseOldSocket()
      requires Enabled(Snapshot(), AttachClosesOld)
      modifies this`writers, this`attaching
      ensures Snapshot() == Next(old(Snapshot()), AttachClosesOld)
    {
      writers := MarkClosed(writers, attaching.previous);
      attaching := ClosingOld(attaching.ws, attaching.previous);
    }

    /** The timeout branch of `_wait_outbound_close` up to the direct close. */
    method StopForClose(ws: Socket)
      requires TaskExists(Snapshot())
      modifies this`writers, this`stopped
      ensures Snapshot() == StopWriter(old(Snapshot()), ws).(stopped := old(stopped) + {ws})
    {
      StopOutboundWriter(ws);
      stopped := stopped + {ws};
    }

    /** The first segment of `_notify_and_terminate`. */
    method NotifyEnd(text: string, code: int, reason: string)
      requires QueueExists(Snapshot())
      modifies this
      ensures Snapshot() == Farewell(old(Snapshot()).(ending := true), text, code, reason)
    {
      ending := true;
      SayFarewell(text, code, reason);
    }

    method WriterFail(i: nat)
      requires Core(Snapshot()) && Enabled(Snapshot(), WriterFails(i))
      modifies this
      ensures Snapshot() == FinishWriter(old(Snapshot()), i)
    {
      assert FramesOk(writers[i]);
      if writers[i].phase.Sending? {
        WriterAborts(i);
      } else {
        WriterReturns(i);
      }
    }

    /** One segment of a session callback or writer task. */
    method TurnOutput(step: Step)
      requires Core(Snapshot()) && ReaderOk(Snapshot()) && Enabled(Snapshot(), step)
      requires step.PtyReadable? || IsWriterStep(step)
      modifies this
      ensures Snapshot() == Next(old(Snapshot()), step)
    {
      match step
      case PtyReadable(result) => OnPtyReadable(result);
      case WriterTakes(i) => WriterTake(i);
      case WriterSent(i) => WriterSent(i);
      case WriterFails(i) => WriterFail(i);
    }

    /** One segment of a route that attaches or detaches its socket. */
    method TurnRoute(step: Step)
      requires Enabled(Snapshot(), step) && IsRouteStep(step)
      modifies this
      ensures Snapshot() == Next(old(Snapshot()), step)
    {
      match step
      case AttachBegins(ws) => AttachBegin(ws);
      case AttachClosesOld => CloseOldSocket();
      case AttachInstalls => InstallSocket(attaching.ws);
      case AttachReturns => attaching := Idle;
      case AttachCancelled => CancelAttach();
      case Detaches(ws) => ReleaseSocket(ws);
      case SendsStatus(text) => var _ := EnqueueOutbound(Text(text), false);
    }

    /** One segment of a task that closes a socket. */
    method TurnClose(step: Step)
      requires Enabled(Snapshot(), step) && IsCloseStep(step)
      modifies this
      ensures Snapshot() == Next(old(Snapshot()), step)
    {
      if step.ClosesAttached? {
        CloseAttached(step.ws, step.code, step.reason);
      } else if step.CloseTimesOut? {
        StopForClose(step.ws);
      } else {
        writers := MarkClosed(writers, step.ws);
      }
    }

    /** One segment of a task that ends the session, before it terminates it. */
    method TurnEnding(step: Step)
      requires Enabled(Snapshot(), step)
      requires step.ChildExits? || step.EndNotifies? || step.Replaced?
      modifies this
      ensures Snapshot() == Next(old(Snapshot()), step)
    {
      if step.ChildExits? {
        HandleExit(step.text, step.reason);
      } else if step.EndNotifies? {
        NotifyEnd(step.text, step.code, step.reason);
      } else {
        TakeSocketForReplacement();
      }
    }

    method CancelEnding()
      modifies this`ending
      ensures Snapshot() == old(Snapshot()).(ending := false)
    {
      ending := false;
    }

    method BeginTerminate()
      modifies this`terminating
      ensures Snapshot() == old(Snapshot()).(terminating := true)
    {
      terminating := true;
    }

    method EndTerminate()
      modifies this`alive, this`fdOpen, this`readerRegistered, this`readerPaused
      ensures Snapshot() == CleanupFd(old(Snapshot()).(alive := false))
    {
      alive := false;
      CleanupMaster();
    }

    /** The flags of `terminate`, or of an end that is cancelled before it. */
    method TurnTerminate(step: Step)
      requires Enabled(Snapshot(), step)
      requires step.EndCancelled? || step.TerminateBegins? || step.TerminateEnds?
      modifies this
      ensures Snapshot() == Next(old(Snapshot()), step)
    {
      if step.EndCancelled? {
        CancelEnding();
      } else if step.TerminateBegins? {
        BeginTerminate();
      } else {
        EndTerminate();
      }
    }

    /** Whatever segment comes next, it does what the model says and keeps the invariant. */
    method RunSegment(step: Step)
      requires Valid() && Enabled(Snapshot(), step)
      modifies this
      ensures Snapshot() == Next(old(Snapshot()), step) && Valid()
    {
      StepKeepsInv(Snapshot(), step);
      if step.PtyReadable? || IsWriterStep(step) {
        TurnOutput(step);
      } else if IsRouteStep(step) {
        TurnRoute(step);
      } else if IsCloseStep(step) {
        TurnClose(step);
      } else if step.ChildExits? || step.EndNotifies? || step.Replaced? {
        TurnEnding(step);
      } else {
        TurnTerminate(step);
      }
    }
  }
}
