/** What each segment of the output path does, read off the state before and after: which frames
    are queued for whom, which writer is cancelled, what the session is left with. */
module OutboundEffects {
  import opened Common
  import opened OutboundModel
  import opened OutboundInvariant
  import opened OutboundCore
  import opened OutboundFlow
  import opened OutboundSteps
  import opened OutboundTheorems

  /** The writers are as before, but for frames queued last for writer i. */
  predicate Queues(s: State, t: State, i: nat, items: seq<Item>) {
    && i < |s.writers|
    && t.writers == s.writers[i := s.writers[i].(queue := s.writers[i].queue + items, log := s.writers[i].log + items)]
  }

  /** A future that is still open, for the frame at this place of writer i's log. */
  predicate OpensFuture(s: State, t: State, i: nat, index: nat) {
    t.completions == s.completions + [Completion(i, index, Pending)]
  }

  predicate QueuesNothing(s: State, t: State) {
    t.writers == s.writers && t.completions == s.completions
  }

  lemma PutEffect(s: State, i: nat, frame: Frame, wanted: bool)
    requires i < |s.writers|
    ensures var t := Put(s, i, frame, wanted);
            && Queues(s, t, i, [Item(frame, if wanted then Some(|s.completions|) else None)])
            && (if wanted then OpensFuture(s, t, i, |s.writers[i].log|) else t.completions == s.completions)
            && t.websocket == s.websocket && t.outQueue == s.outQueue
  {
    assert s.completions + [] == s.completions;
  }

  lemma EnqueueEffect(s: State, frame: Frame, wanted: bool)
    requires QueueExists(s)
    ensures var t := Enqueue(s, frame, wanted);
            && t.websocket == s.websocket && t.outQueue == s.outQueue && QueueExists(t)
            && if s.outQueue.None? then QueuesNothing(s, t)
               else
                 var i := s.outQueue.value;
                 && Queues(s, t, i, [Item(frame, if wanted then Some(|s.completions|) else None)])
                 && (if wanted then OpensFuture(s, t, i, |s.writers[i].log|) else t.completions == s.completions)
  {
    if s.outQueue.Some? {
      PutEffect(s, s.outQueue.value, frame, wanted);
    }
  }

  lemma FarewellEffect(s: State, text: string, code: int, reason: string)
    requires QueueExists(s)
    ensures var t := Farewell(s, text, code, reason);
            && t.websocket.None?
            && if s.websocket.Some? && s.outQueue.Some? then
                 var i := s.outQueue.value;
                 && Queues(s, t, i, [Item(Text(text), None), Item(Close(code, reason), Some(|s.completions|))])
                 && OpensFuture(s, t, i, |s.writers[i].log| + 1)
               else QueuesNothing(s, t)
  {
    if s.websocket.Some? {
      var released := s.(websocket := None);
      var said := Enqueue(released, Text(text), false);
      EnqueueEffect(released, Text(text), false);
      EnqueueEffect(said, Close(code, reason), true);
      if s.outQueue.Some? {
        TwoFrames(s.writers, s.outQueue.value, Item(Text(text), None), Item(Close(code, reason), Some(|s.completions|)));
      }
    }
  }

  lemma TwoFrames(ws: seq<Writer>, i: nat, first: Item, second: Item)
    requires i < |ws|
    ensures var vs := ws[i := ws[i].(queue := ws[i].queue + [first], log := ws[i].log + [first])];
            vs[i := vs[i].(queue := vs[i].queue + [second], log := vs[i].log + [second])]
            == ws[i := ws[i].(queue := ws[i].queue + [first, second], log := ws[i].log + [first, second])]
  {
    assert ws[i].queue + [first] + [second] == ws[i].queue + [first, second];
    assert ws[i].log + [first] + [second] == ws[i].log + [first, second];
  }

  // ---- The end of a session ------------------------------------------------------------------

  /** When the child has exited, the session is dead with its fd closed and no socket; a socket
      that was attached is owed, after all that was queued for it, the exit message and then a
      normal close, whose sending somebody waits for. */
  lemma ExitSaysFarewell(s: State, text: string, reason: string)
    requires Reachable(s) && Enabled(s, ChildExits(text, reason))
    ensures var t := Next(s, ChildExits(text, reason));
            && !t.alive && !t.fdOpen && !t.reader.registered && !t.reader.paused && t.websocket.None?
            && if s.websocket.Some? && s.outQueue.Some? then
                 var i := s.outQueue.value;
                 && Queues(s, t, i, [Item(Text(text), None), Item(Close(1000, reason), Some(|s.completions|))])
                 && OpensFuture(s, t, i, |s.writers[i].log| + 1)
                 && s.writers[i].ws == s.websocket.value
               else QueuesNothing(s, t)
  {
    ReachableInv(s);
    CleanupEffect(s.(alive := false));
    var dead := CleanupFd(s.(alive := false));
    FarewellEffect(dead, text, 1000, reason);
    FarewellKeepsLife(dead, text, 1000, reason);
  }

  predicate SameLife(s: State, t: State) {
    && t.alive == s.alive && t.terminating == s.terminating && t.ending == s.ending
    && t.fdOpen == s.fdOpen && t.reader == s.reader && t.output == s.output && t.buffer == s.buffer
  }

  lemma ControlKeepsLife(s: State, frame: Frame, wanted: bool)
    requires QueueExists(s) && !frame.Data?
    ensures SameLife(s, Enqueue(s, frame, wanted)) && QueueExists(Enqueue(s, frame, wanted))
  {
  }

  lemma FarewellKeepsLife(s: State, text: string, code: int, reason: string)
    requires QueueExists(s)
    ensures SameLife(s, Farewell(s, text, code, reason))
  {
    if s.websocket.Some? {
      var released := s.(websocket := None);
      ControlKeepsLife(released, Text(text), false);
      ControlKeepsLife(Enqueue(released, Text(text), false), Close(code, reason), true);
    }
  }

  /** The same for an end or an idle expiry, with its own message and close; the session lives on
      until it is terminated. */
  lemma EndSaysFarewell(s: State, text: string, code: int, reason: string)
    requires Reachable(s) && Enabled(s, EndNotifies(text, code, reason))
    ensures var t := Next(s, EndNotifies(text, code, reason));
            && t.alive == s.alive && t.terminating == s.terminating && t.ending && t.websocket.None?
            && t.reader == s.reader
            && if s.websocket.Some? && s.outQueue.Some? then
                 var i := s.outQueue.value;
                 && Queues(s, t, i, [Item(Text(text), None), Item(Close(code, reason), Some(|s.completions|))])
                 && OpensFuture(s, t, i, |s.writers[i].log| + 1)
                 && s.writers[i].ws == s.websocket.value
               else QueuesNothing(s, t)
  {
    ReachableInv(s);
    FarewellEffect(s.(ending := true), text, code, reason);
    FarewellKeepsLife(s.(ending := true), text, code, reason);
  }

  /** Terminating marks the session and touches no queue. */
  lemma TerminateMarks(s: State)
    requires Enabled(s, TerminateBegins)
    ensures Next(s, TerminateBegins) == s.(terminating := true)
  {
  }

  /** In the end it leaves it dead, its fd closed and nothing registered. */
  lemma TerminateDecides(s: State)
    requires Reachable(s) && Enabled(s, TerminateEnds)
    ensures var t := Next(s, TerminateEnds);
            && !t.alive && !t.fdOpen && !t.reader.registered && !t.reader.paused && QueuesNothing(s, t)
            && t.websocket == s.websocket
  {
    ReachableInv(s);
    CleanupEffect(s.(alive := false));
  }

  lemma CleanupEffect(s: State)
    requires !s.fdOpen ==> !s.reader.registered && !s.reader.paused
    ensures var t := CleanupFd(s);
            && !t.fdOpen && !t.reader.registered && !t.reader.paused && QueuesNothing(s, t)
            && t.websocket == s.websocket && t.alive == s.alive
  {
  }

  // ---- Closing a socket from outside -----------------------------------------------------------

  /** A close asked for by somebody else is queued behind everything else for a socket whose writer
      is the session's; any other socket is closed at once, and only that one is marked. */
  lemma CloseDecides(s: State, ws: Socket, code: int, reason: string)
    requires Reachable(s) && Enabled(s, ClosesAttached(ws, code, reason))
    ensures var t := Next(s, ClosesAttached(ws, code, reason));
            if s.outWriterWs == Some(ws) then
              && s.outQueue.Some? && s.outQueue.value < |s.writers| && s.writers[s.outQueue.value].ws == ws
              && Queues(s, t, s.outQueue.value, [Item(Close(code, reason), Some(|s.completions|))])
              && OpensFuture(s, t, s.outQueue.value, |s.writers[s.outQueue.value].log|)
            else
              && |t.writers| == |s.writers| && t.completions == s.completions
              && forall i :: 0 <= i < |s.writers| ==>
                   t.writers[i] == if s.writers[i].ws == ws then s.writers[i].(closeBegun := true) else s.writers[i]
  {
    ReachableInv(s);
    if s.outWriterWs == Some(ws) {
      EnqueueEffect(s, Close(code, reason), true);
    }
  }

  /** A close that is not sent in time: the socket's writer is cancelled if it is the session's. */
  lemma TimeoutDecides(s: State, ws: Socket)
    requires Reachable(s) && Enabled(s, CloseTimesOut(ws))
    ensures var t := Next(s, CloseTimesOut(ws));
            && ws in t.stopped && t.completions == s.completions && |t.writers| == |s.writers|
            && forall i :: 0 <= i < |s.writers| ==>
                 t.writers[i] == if s.outWriterTask == Some(i) && s.writers[i].ws == ws
                                 then s.writers[i].(cancelled := true) else s.writers[i]
  {
    ReachableInv(s);
  }

  lemma DirectCloseDecides(s: State, ws: Socket)
    requires Enabled(s, ClosesDirectly(ws))
    ensures var t := Next(s, ClosesDirectly(ws));
            && |t.writers| == |s.writers| && t.completions == s.completions
            && forall i :: 0 <= i < |s.writers| ==>
                 t.writers[i] == if s.writers[i].ws == ws then s.writers[i].(closeBegun := true) else s.writers[i]
  {
  }

  // ---- Attach and detach -------------------------------------------------------------------------

  /** The socket is the session's, with a fresh writer whose only frame is the replay, if there is
      anything to replay; nobody else's queue has changed. */
  ghost predicate IsInstalled(s: State, t: State, ws: Socket) {
    var i := |s.writers|;
    && t.websocket == Some(ws) && t.outWriterWs == Some(ws) && t.outQueue == Some(i) && t.outWriterTask == Some(i)
    && |t.writers| == i + 1 && t.writers[..i] == s.writers
    && t.writers[i].ws == ws && t.writers[i].phase.Waiting? && !t.writers[i].cancelled && !t.writers[i].closeBegun
    && t.writers[i].queue == t.writers[i].log && t.writers[i].begun == 0
    && if s.buffer == [] then
         t.writers[i].log == [] && t.completions == s.completions && t.attach.Idle?
       else
         && t.writers[i].log == [Item(Data(s.buffer), Some(|s.completions|))]
         && OpensFuture(s, t, i, 0) && t.attach == Replaying(ws, |s.completions|)
  }

  lemma InstallEffect(s: State, ws: Socket)
    ensures IsInstalled(s, Install(s, ws), ws)
  {
    var published := Publish(s, ws);
    assert published.writers[..|s.writers|] == s.writers;
    if s.buffer != [] {
      EnqueueEffect(published, Data(s.buffer), true);
      assert Install(s, ws).writers[..|s.writers|] == s.writers;
    }
  }

  /** Only the session's own writer may be cancelled, and only if it serves this socket. */
  lemma StopEffect(s: State, ws: Socket)
    requires Core(s) && TaskExists(s)
    ensures var t := StopWriter(s, ws);
            && |t.writers| == |s.writers| && t.completions == s.completions
            && forall i :: 0 <= i < |s.writers| ==>
                 t.writers[i] == if s.outWriterTask == Some(i) && s.writers[i].ws == ws
                                 then s.writers[i].(cancelled := true) else s.writers[i]
  {
  }

  /** `attach` serves a free session at once; from a session that has a socket it first takes that
      socket and cancels its writer. */
  lemma AttachDecides(s: State, ws: Socket)
    requires Reachable(s) && Enabled(s, AttachBegins(ws))
    ensures var t := Next(s, AttachBegins(ws));
            if s.websocket.None? then IsInstalled(s, t, ws)
            else
              && t.websocket.None? && t.attach == Stopping(ws, s.websocket.value) && t.completions == s.completions
              && |t.writers| == |s.writers|
              && forall i :: 0 <= i < |s.writers| ==>
                   t.writers[i] == if s.outWriterTask == Some(i) then s.writers[i].(cancelled := true) else s.writers[i]
  {
    ReachableInv(s);
    if s.websocket.None? {
      InstallEffect(s, ws);
    } else {
      StopEffect(s, s.websocket.value);
    }
  }

  /** Then it closes the previous socket, and then it serves its own; with nothing left to send
      back, or once the replay is settled, it is over. */
  lemma AttachGoesOn(s: State)
    ensures Enabled(s, AttachClosesOld) ==>
              var t := Next(s, AttachClosesOld);
              && t.attach == ClosingOld(s.attach.ws, s.attach.previous) && |t.writers| == |s.writers|
              && forall i :: 0 <= i < |s.writers| ==>
                   t.writers[i] == if s.writers[i].ws == s.attach.previous
                                   then s.writers[i].(closeBegun := true) else s.writers[i]
    ensures Enabled(s, AttachInstalls) ==> IsInstalled(s, Next(s, AttachInstalls), s.attach.ws)
    ensures Enabled(s, AttachReturns) ==>
              && !s.completions[s.attach.done].outcome.Pending?
              && Next(s, AttachReturns) == s.(attach := Idle)
  {
    if s.attach.ClosingOld? {
      InstallEffect(s, s.attach.ws);
    }
  }

  lemma StopIgnores(s: State, u: State, ws: Socket)
    requires TaskExists(s) && u.writers == s.writers
    requires u.outWriterTask == s.outWriterTask && u.outWriterWs == s.outWriterWs
    ensures TaskExists(u) && StopWriter(u, ws).writers == StopWriter(s, ws).writers
    ensures StopWriter(u, ws).attach == u.attach && StopWriter(u, ws).websocket == u.websocket
    ensures StopWriter(u, ws).completions == u.completions
  {
  }

  lemma CancelEffect(s: State, ws: Socket, done: nat)
    requires TaskExists(s) && s.attach == Replaying(ws, done) && done < |s.completions|
    ensures var t := AfterAttachCancelled(s);
            && t.attach.Idle? && t.websocket == (if s.websocket == Some(ws) then None else s.websocket)
            && t.completions == Settle(s.completions, Some(done), Abandoned)
            && t.writers == StopWriter(s, ws).writers
  {
    var abandoned := s.(completions := Settle(s.completions, Some(done), Abandoned), attach := Idle);
    if s.websocket == Some(ws) {
      var released := abandoned.(websocket := None);
      StopIgnores(s, released, ws);
      assert AfterAttachCancelled(s) == DropSocket(abandoned, ws) == StopWriter(released, ws);
    } else {
      StopIgnores(s, abandoned, ws);
      assert AfterAttachCancelled(s) == StopWriter(abandoned, ws);
    }
  }

  /** A cancelled `attach` that was waiting for its replay gives the future up, lets go of its socket
      and cancels its writer. */
  lemma CancelledAttachDecides(s: State)
    requires Reachable(s) && Enabled(s, AttachCancelled) && s.attach.Replaying?
    ensures var t := Next(s, AttachCancelled);
            && t.attach.Idle? && t.websocket != Some(s.attach.ws)
            && (s.websocket != Some(s.attach.ws) ==> t.websocket == s.websocket)
            && |t.completions| == |s.completions| && !t.completions[s.attach.done].outcome.Pending?
            && |t.writers| == |s.writers|
            && forall i :: 0 <= i < |s.writers| ==>
                 t.writers[i] == if s.outWriterTask == Some(i) && s.writers[i].ws == s.attach.ws
                                 then s.writers[i].(cancelled := true) else s.writers[i]
  {
    ReachableInv(s);
    CancelEffect(s, s.attach.ws, s.attach.done);
    StopEffect(s, s.attach.ws);
  }

  /** Cancelled before that, it has no socket yet to let go of: while the previous writer is being
      stopped it goes on, and otherwise it is over. */
  lemma EarlyCancelDecides(s: State)
    requires Enabled(s, AttachCancelled) && !s.attach.Replaying?
    ensures Next(s, AttachCancelled) == if s.attach.Stopping? then s else s.(attach := Idle)
  {
  }

  /** `detach` lets go of its own socket, cancelling its writer, and of no other. */
  lemma DetachDecides(s: State, ws: Socket)
    requires Reachable(s) && Enabled(s, Detaches(ws))
    ensures var t := Next(s, Detaches(ws));
            if s.websocket != Some(ws) then t == s
            else
              && t.websocket.None? && t.completions == s.completions && |t.writers| == |s.writers|
              && forall i :: 0 <= i < |s.writers| ==>
                   t.writers[i] == if s.outWriterTask == Some(i) then s.writers[i].(cancelled := true) else s.writers[i]
  {
    ReachableInv(s);
    if s.websocket == Some(ws) {
      StopEffect(s, ws);
    }
  }

  /** A replacement takes the socket away and cancels its writer, and may then close the socket. */
  lemma ReplacementDecides(s: State)
    requires Reachable(s) && Enabled(s, Replaced)
    ensures var t := Next(s, Replaced);
            && t.websocket.None? && t.ending && t.completions == s.completions && |t.writers| == |s.writers|
            && t.stopped == s.stopped + (if s.websocket.Some? then {s.websocket.value} else {})
            && forall i :: 0 <= i < |s.writers| ==>
                 t.writers[i] == if s.websocket.Some? && s.outWriterTask == Some(i)
                                 then s.writers[i].(cancelled := true) else s.writers[i]
  {
    ReachableInv(s);
    if s.websocket.Some? {
      StopEffect(s, s.websocket.value);
      ReplacedEffect(s, s.websocket.value);
    }
  }

  lemma ReplacedEffect(s: State, ws: Socket)
    requires TaskExists(s) && s.websocket == Some(ws)
    ensures var t := AfterReplaced(s);
            && t.websocket.None? && t.ending && t.stopped == s.stopped + {ws}
            && t.completions == s.completions && t.writers == StopWriter(s, ws).writers
  {
  }

  // ---- Reading and writing -------------------------------------------------------------------------

  /** A status message goes to the end of the session's queue. */
  lemma StatusDecides(s: State, text: string)
    requires Reachable(s) && Enabled(s, SendsStatus(text))
    ensures var t := Next(s, SendsStatus(text));
            && t.completions == s.completions
            && if s.outQueue.Some? then Queues(s, t, s.outQueue.value, [Item(Text(text), None)])
               else QueuesNothing(s, t)
  {
    ReachableInv(s);
    EnqueueEffect(s, Text(text), false);
  }

  /** Output is remembered, and queued if a socket is attached; at the end of the PTY the reader goes
      and the exit is scheduled; without anything to read nothing happens. */
  lemma ReadDecides(s: State, result: ReadResult)
    requires Reachable(s) && Enabled(s, PtyReadable(result))
    ensures var t := Next(s, PtyReadable(result));
            match result
            case WouldBlock => t == s
            case EndOfFile => !t.reader.registered && t.exitScheduled && QueuesNothing(s, t) && t.output == s.output
            case Chunk(data) =>
              && t.output == s.output + data && t.completions == s.completions && t.websocket == s.websocket
              && if s.websocket.Some? && s.outQueue.Some?
                 then Queues(s, t, s.outQueue.value, [Item(Data(data), None)])
                 else QueuesNothing(s, t)
  {
    ReachableInv(s);
    if result.Chunk? && s.websocket.Some? {
      EnqueueEffect(Grown(s, result.data), Data(result.data), false);
    }
  }

  /** The writer begins the frame at the head of its queue. */
  lemma TakeDecides(s: State, i: nat)
    requires Enabled(s, WriterTakes(i))
    ensures var t := Next(s, WriterTakes(i));
            && |t.writers| == |s.writers| && t.completions == s.completions
            && t.writers[i].phase == Sending(s.writers[i].queue[0]) && t.writers[i].queue == s.writers[i].queue[1..]
            && t.writers[i].log == s.writers[i].log && t.writers[i].begun == s.writers[i].begun + 1
            && forall j :: 0 <= j < |s.writers| && j != i ==> t.writers[j] == s.writers[j]
  {
  }

  /** A send that returned resolves its future; after a close the writer is finished, otherwise it
      waits for the next frame. */
  lemma SentDecides(s: State, i: nat)
    requires Reachable(s) && Enabled(s, WriterSent(i))
    ensures var t := Next(s, WriterSent(i));
            var item := s.writers[i].phase.item;
            && |t.writers| == |s.writers| && |t.completions| == |s.completions|
            && t.writers[i].acked == s.writers[i].acked + 1
            && (if item.frame.Close? then t.writers[i].phase.Finished? && t.outWriterTask != Some(i)
                else t.writers[i].phase.Waiting? && t.writers[i].queue == s.writers[i].queue)
            && (item.done.Some? && s.completions[item.done.value].outcome.Pending? ==>
                  t.completions[item.done.value].outcome == Sent)
  {
    ReachableInv(s);
    SentEffect(s, i);
    SentForgets(s, i);
  }

  lemma SentForgets(s: State, i: nat)
    requires InFlightKnown(s, i)
    ensures s.writers[i].phase.item.frame.Close? ==> AfterSent(s, i).outWriterTask != Some(i)
  {
  }

  /** A send that failed, or a cancellation, ends the writer: everything it still held is given up,
      its open futures are false, and the session forgets it if it was its own. */
  lemma FailureDecides(s: State, i: nat)
    requires Reachable(s) && Enabled(s, WriterFails(i))
    ensures var t := Next(s, WriterFails(i));
            && |t.writers| == |s.writers| && |t.completions| == |s.completions|
            && t.writers[i].phase.Finished? && t.writers[i].queue == [] && t.outWriterTask != Some(i)
            && (forall j :: 0 <= j < |s.writers| && j != i ==> t.writers[j] == s.writers[j])
            && (forall f :: 0 <= f < |s.completions| ==>
                  t.completions[f] == if s.completions[f].writer == i && s.completions[f].outcome.Pending?
                                      then s.completions[f].(outcome := Unsent) else s.completions[f])
  {
    ReachableInv(s);
    FinishEffect(s, i);
  }

  lemma FinishEffect(s: State, i: nat)
    requires i < |s.writers|
    ensures var t := FinishWriter(s, i);
            && |t.writers| == |s.writers| && t.writers[i].phase.Finished? && t.writers[i].queue == []
            && t.outWriterTask != Some(i) && t.completions == GiveUpAll(s.completions, i)
            && forall j :: 0 <= j < |s.writers| && j != i ==> t.writers[j] == s.writers[j]
  {
  }
}
