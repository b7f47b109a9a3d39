/** The promises of the output path, over every run from `spawn`. */
module OutboundTheorems {
  import opened Common
  import opened OutboundModel
  import opened OutboundSums
  import opened OutboundInvariant
  import opened OutboundCore
  import opened OutboundFlow
  import opened OutboundSteps
  import opened OutboundHistory

  ghost predicate Reachable(t: State) {
    exists steps :: Run(Spawned(), steps, t)
  }

  lemma ReachableInv(t: State)
    requires Reachable(t)
    ensures Inv(t)
  {
    var steps :| Run(Spawned(), steps, t);
    SpawnedInv();
    RunKeepsInv(Spawned(), steps, t);
  }

  // ---- Stream continuity -------------------------------------------------------------------

  /** The payload of every frame whose send has begun, in order: all a socket can have got. */
  function Delivered(w: Writer): seq<byte>
    requires w.begun <= |w.log|
  {
    BytesOf(w.log[..w.begun])
  }

  /** A socket gets a prefix of the last BUFFER_LIMIT bytes before it was attached followed by
      all output since; and while it stays attached nothing of that is missing, it is either
      delivered or still queued. */
  lemma StreamContinuity(t: State, i: nat)
    requires Reachable(t) && i < |t.writers|
    ensures t.buffer == Last(t.output, BUFFER_LIMIT)
    ensures var w := t.writers[i];
            && w.begun <= |w.log| && w.start <= |t.output|
            && Delivered(w) <= Last(t.output[..w.start], BUFFER_LIMIT) + t.output[w.start..]
            && (Live(w, i, t.outWriterTask, t.websocket) ==>
                  Delivered(w) + BytesOf(w.queue) ==
                  Last(t.output[..w.start], BUFFER_LIMIT) + t.output[w.start..])
  {
    ReachableInv(t);
    var w := t.writers[i];
    assert FramesOk(w) && StreamOk(w, t.output, Live(w, i, t.outWriterTask, t.websocket));
    DeliveredIsPrefix(w, Owed(w, t.output));
    if Live(w, i, t.outWriterTask, t.websocket) {
      assert !w.phase.Finished?;
      DeliveredAndQueued(w);
    }
  }

  lemma DeliveredIsPrefix(w: Writer, owed: seq<byte>)
    requires w.begun <= |w.log| && BytesOf(w.log) <= owed
    ensures Delivered(w) <= owed
  {
    BytesOfPrefix(w.log, w.begun);
  }

  lemma DeliveredAndQueued(w: Writer)
    requires FramesOk(w) && !w.phase.Finished?
    ensures Delivered(w) + BytesOf(w.queue) == BytesOf(w.log)
  {
    assert w.log == w.log[..w.begun] + w.log[w.begun..];
    BytesOfConcat(w.log[..w.begun], w.log[w.begun..]);
  }

  // ---- Hand-over between writers -----------------------------------------------------------

  /** The counter is exactly what all writers together still hold; an attached socket owns the
      queue, and no other writer of that socket is active. Any former writer that is still active
      has the close of its socket in its queue or in flight. */
  lemma HandOver(t: State)
    requires Reachable(t)
    ensures t.pendingBytes == TotalHeld(t.writers)
    ensures t.outQueue == t.outWriterTask
    ensures t.websocket.Some? && t.outQueue.Some? ==>
              && t.outQueue.value < |t.writers|
              && t.writers[t.outQueue.value].ws == t.websocket.value
              && t.outWriterWs == t.websocket
    ensures t.websocket.Some? ==> OnlyCurrent(t.writers, t.outWriterTask, t.websocket.value)
    ensures forall i :: 0 <= i < |t.writers| ==>
              Retired(t.writers[i]) || t.outWriterTask == Some(i) || Leaving(t.writers[i])
  {
    ReachableInv(t);
  }

  /** A predecessor that ends late touches nothing that belongs to its successor. */
  lemma LateFinisher(s: State, step: Step, i: nat)
    requires Reachable(s) && Enabled(s, step)
    requires step == WriterSent(i) || step == WriterFails(i)
    requires s.outWriterTask != Some(i)
    ensures var t := Next(s, step);
            && t.websocket == s.websocket && t.outQueue == s.outQueue
            && t.outWriterTask == s.outWriterTask && t.outWriterWs == s.outWriterWs
            && |t.writers| == |s.writers| && |t.completions| == |s.completions|
            && (forall j :: 0 <= j < |s.writers| && j != i ==> t.writers[j] == s.writers[j])
            && (forall f :: 0 <= f < |s.completions| && s.completions[f].writer != i ==>
                  t.completions[f] == s.completions[f])
  {
    ReachableInv(s);
    if step.WriterSent? {
      SentEffect(s, i);
      SentSettlesOwn(s, i);
    } else {
      FinishSparesOthers(s, i);
    }
  }

  lemma FinishSparesOthers(s: State, i: nat)
    requires i < |s.writers| && s.outWriterTask != Some(i)
    ensures var t := FinishWriter(s, i);
            && SameWiring(s, t) && |t.writers| == |s.writers| && |t.completions| == |s.completions|
            && (forall j :: 0 <= j < |s.writers| && j != i ==> t.writers[j] == s.writers[j])
            && (forall f :: 0 <= f < |s.completions| && s.completions[f].writer != i ==>
                  t.completions[f] == s.completions[f])
  {
  }

  /** The future of a frame in flight belongs to the writer that sends it. */
  lemma SentSettlesOwn(s: State, i: nat)
    requires CompletionsOk(s.writers, s.completions) && AllFramesOk(s.writers) && InFlightKnown(s, i)
    ensures var settled := Settle(s.completions, s.writers[i].phase.item.done, Sent);
            && |settled| == |s.completions|
            && forall f :: 0 <= f < |settled| && s.completions[f].writer != i ==> settled[f] == s.completions[f]
  {
    var w := s.writers[i];
    assert FramesOk(w);
    assert OwnsIts(s.completions, w.log, i);
    assert PointsBack(s.completions, w.log[w.acked].done, i, w.acked);
  }

  // ---- Backpressure ------------------------------------------------------------------------

  /** Reader and pending bytes: never both registered and paused, registered only below the
      high mark, paused only above the low one and only while some writer can still act. */
  lemma Backpressure(t: State)
    requires Reachable(t)
    ensures !(t.reader.registered && t.reader.paused)
    ensures t.reader.registered ==> t.pendingBytes < OUTPUT_HIGH_WATERMARK
    ensures t.reader.paused ==>
              && t.pendingBytes > OUTPUT_LOW_WATERMARK
              && exists i :: 0 <= i < |t.writers| && Held(t.writers[i]) > 0 && CanAct(t, i)
  {
    ReachableInv(t);
    if t.reader.paused {
      var i := SomeoneHolds(t.writers);
      HolderCanAct(t, i);
    }
  }

  /** Some segment of this writer can run next. */
  predicate CanAct(t: State, i: nat) {
    Enabled(t, WriterTakes(i)) || Enabled(t, WriterSent(i)) || Enabled(t, WriterFails(i))
  }

  lemma HolderCanAct(t: State, i: nat)
    requires Inv(t) && i < |t.writers| && Held(t.writers[i]) > 0
    ensures CanAct(t, i)
  {
    assert FramesOk(t.writers[i]);
  }

  lemma BacklogArithmetic(total: nat, stale: nat, unfinished: nat, unfinishedStale: nat)
    requires unfinishedStale <= unfinished && 1 <= unfinished && stale <= BACKLOG
    requires total <= stale + (unfinished - unfinishedStale) * BUFFER_LIMIT
    requires unfinishedStale == 0 ==> stale == 0
    ensures total <= BACKLOG + (unfinished - 1) * BUFFER_LIMIT
  {
    if unfinishedStale == 0 {
      assert total <= (unfinished - 1) * BUFFER_LIMIT + BUFFER_LIMIT;
    } else {
      assert (unfinished - unfinishedStale) * BUFFER_LIMIT <= (unfinished - 1) * BUFFER_LIMIT;
    }
  }

  lemma BacklogOfWriters(ws: seq<Writer>, n: nat)
    requires AllFramesOk(ws) && BacklogOk(ws, n)
    ensures Unfinished(ws) == 0 ==> TotalHeld(ws) == 0
    ensures Unfinished(ws) >= 1 ==> TotalHeld(ws) <= BACKLOG + (Unfinished(ws) - 1) * BUFFER_LIMIT
  {
    forall i | 0 <= i < |ws| && ws[i].phase.Finished? ensures Held(ws[i]) == 0 {
      assert FramesOk(ws[i]);
    }
    TotalSplit(ws, n);
    if Unfinished(ws) >= 1 {
      BacklogArithmetic(TotalHeld(ws), StaleHeld(ws, n), Unfinished(ws), UnfinishedStale(ws, n));
    }
  }

  /** With `u` unfinished writers at most u - 1 replays come on top of one reader's backlog;
      with a single writer that is the high mark plus one read, less one byte. */
  lemma BacklogBound(t: State)
    requires Reachable(t)
    ensures Unfinished(t.writers) == 0 ==> t.pendingBytes == 0
    ensures Unfinished(t.writers) >= 1 ==>
              t.pendingBytes <= OUTPUT_HIGH_WATERMARK + READ_CHUNK - 1
                                + (Unfinished(t.writers) - 1) * BUFFER_LIMIT
  {
    ReachableInv(t);
    BacklogOfWriters(t.writers, |t.output|);
  }

  // ---- No stall ----------------------------------------------------------------------------

  /** How many segments a writer can still run without new frames. */
  function Work(w: Writer): nat {
    if w.phase.Finished? then 0
    else 2 * |w.queue| + if w.phase.Sending? then 2 else 1
  }

  function TotalWork(ws: seq<Writer>): nat {
    if ws == [] then 0 else TotalWork(ws[..|ws| - 1]) + Work(ws[|ws| - 1])
  }

  lemma {:induction false} TotalWorkUpdate(ws: seq<Writer>, i: nat, w: Writer)
    requires i < |ws|
    ensures TotalWork(ws[i := w]) == TotalWork(ws) - Work(ws[i]) + Work(w)
    decreases |ws|
  {
    var n := |ws| - 1;
    if i == n {
      assert ws[i := w][..n] == ws[..n];
    } else {
      TotalWorkUpdate(ws[..n], i, w);
      assert ws[i := w][..n] == ws[..n][i := w];
    }
  }

  /** `vs` is `ws` with one writer replaced by one that has less to do. */
  predicate LessWork(ws: seq<Writer>, i: nat, vs: seq<Writer>) {
    i < |ws| && |vs| == |ws| && vs == ws[i := vs[i]] && Work(vs[i]) < Work(ws[i])
  }

  lemma FinishWorks(s: State, i: nat)
    requires i < |s.writers| && !s.writers[i].phase.Finished?
    ensures LessWork(s.writers, i, FinishWriter(s, i).writers)
  {
    assert FinishWriter(s, i).writers == s.writers[i := s.writers[i].(queue := [], phase := Finished)];
  }

  lemma SentWorks(s: State, i: nat)
    requires InFlightKnown(s, i)
    ensures LessWork(s.writers, i, AfterSent(s, i).writers)
  {
    var sent := ResumeIfLow(Acknowledge(s, i));
    assert LessWork(s.writers, i, sent.writers);
    if s.writers[i].phase.item.frame.Close? {
      FinishWorks(sent, i);
    }
  }

  lemma WriterStepWorks(s: State, step: Step)
    requires IsWriterStep(step) && Enabled(s, step)
    ensures TotalWork(Next(s, step).writers) < TotalWork(s.writers)
  {
    match step {
      case WriterTakes(i) => assert LessWork(s.writers, i, AfterTake(s, i).writers);
      case WriterSent(i) => SentWorks(s, i);
      case WriterFails(i) => FinishWorks(s, i);
    }
    TotalWorkUpdate(s.writers, step.i, Next(s, step).writers[step.i]);
  }

  /** Left to themselves the writers run out of work: no endless run of writer segments. */
  lemma {:induction false} WritersRunDry(s: State, steps: seq<Step>, t: State)
    requires Run(s, steps, t) && forall k :: 0 <= k < |steps| ==> IsWriterStep(steps[k])
    ensures |steps| + TotalWork(t.writers) <= TotalWork(s.writers)
    decreases |steps|
  {
    if steps != [] {
      WriterStepWorks(s, steps[0]);
      WritersRunDry(Next(s, steps[0]), steps[1..], t);
    }
  }

  /** And when none of them can act the reader of a live session is registered again: a
      paused reader is never forgotten. */
  lemma NoLostResume(t: State)
    requires Reachable(t) && t.alive && !t.terminating && !t.exitScheduled
    ensures t.reader.registered || t.reader.paused
    ensures (forall i :: 0 <= i < |t.writers| ==> !CanAct(t, i)) ==> t.reader.registered
  {
    ReachableInv(t);
    if t.reader.paused {
      Backpressure(t);
    }
  }

  // ---- Frame order and completion ----------------------------------------------------------

  /** A writer begins its frames in the order they were queued, and a close is the last. */
  lemma FrameOrder(t: State, i: nat)
    requires Reachable(t) && i < |t.writers|
    ensures var w := t.writers[i];
            && w.acked <= w.begun <= w.acked + 1 && w.begun <= |w.log|
            && (!w.phase.Finished? ==> w.log[w.begun..] == w.queue)
            && (forall k :: 0 <= k < w.begun - 1 ==> !w.log[k].frame.Close?)
  {
    ReachableInv(t);
    assert FramesOk(t.writers[i]);
  }

  /** A future is resolved at most once and never changes afterwards. */
  lemma ResolvedOnce(s: State, steps: seq<Step>, t: State, f: nat)
    requires Reachable(s) && Run(s, steps, t)
    requires f < |s.completions| && !s.completions[f].outcome.Pending?
    ensures f < |t.completions| && t.completions[f] == s.completions[f]
  {
    ReachableInv(s);
    RunGrows(s, steps, t);
    assert CompletionGrows(s.completions[f], t.completions[f]);
  }

  /** It belongs to one queued frame; unless its waiter abandoned it, it is true exactly when
      the send of that frame returned, and it is settled at the latest when the writer ends. */
  lemma OutcomeMeansSent(t: State, f: nat)
    requires Reachable(t) && f < |t.completions|
    ensures var c := t.completions[f];
            && c.writer < |t.writers| && c.index < |t.writers[c.writer].log|
            && t.writers[c.writer].log[c.index].done == Some(f)
            && (!c.outcome.Abandoned? ==> (c.outcome.Sent? <==> c.index < t.writers[c.writer].acked))
            && (t.writers[c.writer].phase.Finished? ==> !c.outcome.Pending?)
  {
    ReachableInv(t);
    var c := t.completions[f];
    assert CompletionOk(t.writers[c.writer], c, f);
  }

  /** So the untimed wait of `attach` for its replay ends once the writer does. */
  lemma AttachDoesNotHang(t: State)
    requires Reachable(t) && t.attach.Replaying?
    ensures t.attach.done < |t.completions| && t.completions[t.attach.done].writer < |t.writers|
    ensures t.writers[t.completions[t.attach.done].writer].phase.Finished? ==> Enabled(t, AttachReturns)
  {
    ReachableInv(t);
    OutcomeMeansSent(t, t.attach.done);
  }
}
