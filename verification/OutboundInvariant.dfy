/** What every segment of the output path keeps, whatever the interleaving: the wiring of
    sockets, queues and writers, the history of each writer, and the completion futures. */
module OutboundInvariant {
  import opened Common
  import opened OutboundModel

  // ---- The invariant -------------------------------------------------------------------

  /** Queue and history of one writer agree; it begins nothing after its own close. */
  ghost predicate FramesOk(w: Writer) {
    && w.acked <= w.begun <= |w.log|
    && (match w.phase
        case Waiting => w.acked == w.begun && w.queue == w.log[w.begun..]
        case Sending(item) =>
          w.begun == w.acked + 1 && item == w.log[w.acked] && w.queue == w.log[w.begun..]
        case Finished => w.begun <= w.acked + 1 && w.queue == [])
    && (forall k :: 0 <= k < w.begun && w.log[k].frame.Close? ==> k == w.begun - 1 && !w.phase.Waiting?)
    && (forall k :: 0 <= k < w.begun && w.log[k].frame.Close? ==> w.closeBegun)
  }

  ghost predicate AllFramesOk(ws: seq<Writer>) {
    forall i :: 0 <= i < |ws| ==> FramesOk(ws[i])
  }

  predicate Retired(w: Writer) {
    w.cancelled || w.phase.Finished?
  }

  /** The writer is sending the close of its socket. */
  predicate Closing(w: Writer) {
    w.phase.Sending? && w.phase.item.frame.Close?
  }

  /** A close is queued or in flight: the writer will return by itself. */
  ghost predicate Leaving(w: Writer) {
    exists k :: w.acked <= k < |w.log| && w.log[k].frame.Close?
  }

  predicate SocketRetired(ws: seq<Writer>, socket: Socket) {
    forall i :: 0 <= i < |ws| && ws[i].ws == socket ==> Retired(ws[i])
  }

  /** The session has no active writer for the socket; a former one may still be leaving. */
  predicate LetGo(ws: seq<Writer>, task: Option<nat>, socket: Socket) {
    forall i :: 0 <= i < |ws| && ws[i].ws == socket ==> Retired(ws[i]) || task != Some(i)
  }

  /** The session's writer belongs to the session's socket, every other writer is retired or
      leaving, and a direct close hits only sockets the session has let go of. */
  ghost predicate LinksOk(ws: seq<Writer>, task: Option<nat>, owner: Option<Socket>, stopped: set<Socket>) {
    && (task.Some? <==> owner.Some?)
    && (task.Some? ==> task.value < |ws| && ws[task.value].ws == owner.value && !ws[task.value].phase.Finished?)
    && (forall i :: 0 <= i < |ws| ==> Retired(ws[i]) || task == Some(i) || Leaving(ws[i]))
    && (forall i :: 0 <= i < |ws| && ws[i].closeBegun ==> Retired(ws[i]) || Closing(ws[i]) || task != Some(i))
    && (forall i, j :: 0 <= i < j < |ws| ==> ws[i].ws != ws[j].ws)
    && (forall socket :: socket in stopped ==> Attached(ws, socket) && LetGo(ws, task, socket))
  }

  predicate CurrentRetired(s: State) {
    s.outWriterTask.Some? ==>
      s.outWriterTask.value < |s.writers| && Retired(s.writers[s.outWriterTask.value])
  }

  ghost predicate CurrentLeaves(s: State) {
    s.outWriterTask.Some? ==>
      && s.outWriterTask.value < |s.writers|
      && (Retired(s.writers[s.outWriterTask.value]) || Leaving(s.writers[s.outWriterTask.value]))
  }

  /** No writer of the socket but the session's own is active. */
  predicate OnlyCurrent(ws: seq<Writer>, task: Option<nat>, socket: Socket) {
    forall i :: 0 <= i < |ws| && ws[i].ws == socket ==> Retired(ws[i]) || task == Some(i)
  }

  /** How the attached socket and a running `attach` relate to the session's writer. */
  ghost predicate SocketsOk(s: State) {
    && s.outQueue == s.outWriterTask
    && (s.websocket.Some? && s.outWriterTask.Some? ==> s.outWriterWs == s.websocket)
    && (s.websocket.Some? ==>
          Attached(s.writers, s.websocket.value) && OnlyCurrent(s.writers, s.outWriterTask, s.websocket.value))
    && (s.websocket.None? ==> CurrentLeaves(s))
    && (s.attach.Stopping? || s.attach.ClosingOld? ==>
          && s.websocket.None? && CurrentRetired(s)
          && !Attached(s.writers, s.attach.ws)
          && SocketRetired(s.writers, s.attach.previous))
  }

  ghost predicate CompletionOk(w: Writer, c: Completion, f: nat) {
    && c.index < |w.log|
    && w.log[c.index].done == Some(f)
    && (c.outcome.Pending? ==> !w.phase.Finished? && c.index >= w.acked)
    && (c.outcome.Sent? ==> c.index < w.acked)
    && (c.outcome.Unsent? ==> w.phase.Finished? && c.index >= w.acked)
  }

  predicate PointsBack(cs: seq<Completion>, done: Option<nat>, i: nat, k: nat) {
    done.Some? ==>
      done.value < |cs| && cs[done.value].writer == i && cs[done.value].index == k
  }

  ghost predicate OwnsIts(cs: seq<Completion>, log: seq<Item>, i: nat) {
    forall k :: 0 <= k < |log| ==> PointsBack(cs, log[k].done, i, k)
  }

  /** Futures and frames point at each other, and the outcome says where the frame is. */
  ghost predicate CompletionsOk(ws: seq<Writer>, cs: seq<Completion>) {
    && (forall f :: 0 <= f < |cs| ==> cs[f].writer < |ws| && CompletionOk(ws[cs[f].writer], cs[f], f))
    && (forall i :: 0 <= i < |ws| ==> OwnsIts(cs, ws[i].log, i))
  }

  ghost predicate Core(s: State) {
    && AllFramesOk(s.writers)
    && LinksOk(s.writers, s.outWriterTask, s.outWriterWs, s.stopped)
    && CompletionsOk(s.writers, s.completions)
    && SocketsOk(s)
    && (s.attach.Replaying? ==> s.attach.done < |s.completions|)
  }

  // ---- Updates of one writer -------------------------------------------------------------

  /** Writers are never removed and never change their socket. */
  predicate SameSockets(ws: seq<Writer>, vs: seq<Writer>) {
    && |ws| <= |vs|
    && forall i :: 0 <= i < |ws| ==> vs[i].ws == ws[i].ws
  }

  lemma AttachedStays(ws: seq<Writer>, vs: seq<Writer>)
    requires SameSockets(ws, vs)
    ensures forall socket :: Attached(ws, socket) ==> Attached(vs, socket)
    ensures |ws| == |vs| ==> forall socket :: Attached(vs, socket) ==> Attached(ws, socket)
  {
    forall socket | Attached(ws, socket) ensures Attached(vs, socket) {
      var i :| 0 <= i < |ws| && ws[i].ws == socket;
      assert vs[i].ws == socket;
    }
    if |ws| == |vs| {
      forall socket | Attached(vs, socket) ensures Attached(ws, socket) {
        var i :| 0 <= i < |vs| && vs[i].ws == socket;
        assert ws[i].ws == socket;
      }
    }
  }

  /** What retiring a writer, or letting it go on, may change about it. */
  ghost predicate RetiresOne(w: Writer, v: Writer) {
    && (Retired(w) ==> Retired(v))
    && (Leaving(w) ==> Leaving(v) || Retired(v))
    && (v.closeBegun ==> w.closeBegun || Closing(v) || Retired(v))
    && (Closing(w) ==> Closing(v) || Retired(v))
  }

  ghost predicate Retires(ws: seq<Writer>, vs: seq<Writer>) {
    && |ws| == |vs| && SameSockets(ws, vs)
    && forall i :: 0 <= i < |ws| ==> RetiresOne(ws[i], vs[i])
  }

  lemma OneRetires(ws: seq<Writer>, i: nat, v: Writer)
    requires i < |ws| && v.ws == ws[i].ws && RetiresOne(ws[i], v)
    ensures Retires(ws, ws[i := v])
  {
  }

  lemma RetiringKeepsLinks(ws: seq<Writer>, vs: seq<Writer>, task: Option<nat>, owner: Option<Socket>, stopped: set<Socket>)
    requires LinksOk(ws, task, owner, stopped) && Retires(ws, vs)
    requires task.Some? ==> !vs[task.value].phase.Finished?
    ensures LinksOk(vs, task, owner, stopped)
  {
    AttachedStays(ws, vs);
    forall i | 0 <= i < |vs| ensures Retired(vs[i]) || task == Some(i) || Leaving(vs[i]) {
      assert RetiresOne(ws[i], vs[i]);
    }
  }

  /** The wiring of the session itself is untouched. */
  predicate SameWiring(s: State, t: State) {
    && t.websocket == s.websocket && t.attach == s.attach
    && t.outQueue == s.outQueue && t.outWriterTask == s.outWriterTask && t.outWriterWs == s.outWriterWs
  }

  lemma RetiringKeepsSockets(s: State, t: State)
    requires SocketsOk(s) && Retires(s.writers, t.writers) && SameWiring(s, t)
    ensures SocketsOk(t)
  {
    AttachedStays(s.writers, t.writers);
    if s.outWriterTask.Some? && s.outWriterTask.value < |s.writers| {
      assert RetiresOne(s.writers[s.outWriterTask.value], t.writers[s.outWriterTask.value]);
    }
  }

  /** Once its writer is retired, a session may forget it. */
  lemma ForgettingKeepsLinks(ws: seq<Writer>, vs: seq<Writer>, task: Option<nat>, owner: Option<Socket>, stopped: set<Socket>)
    requires LinksOk(ws, task, owner, stopped) && Retires(ws, vs)
    requires task.Some? ==> Retired(vs[task.value])
    ensures LinksOk(vs, None, None, stopped)
  {
    AttachedStays(ws, vs);
    forall i | 0 <= i < |vs| ensures Retired(vs[i]) || Leaving(vs[i]) {
      assert RetiresOne(ws[i], vs[i]);
    }
  }

  lemma ForgettingKeepsSockets(s: State, t: State)
    requires SocketsOk(s) && Retires(s.writers, t.writers)
    requires s.outWriterTask.Some? && s.outWriterTask.value < |t.writers| && Retired(t.writers[s.outWriterTask.value])
    requires t.websocket == s.websocket && t.attach == s.attach
    requires t.outQueue.None? && t.outWriterTask.None? && t.outWriterWs.None?
    ensures SocketsOk(t)
  {
    AttachedStays(s.writers, t.writers);
  }

  /** Dying, ending and reading do not disturb what is already wired up. */
  lemma LifeKeepsCore(s: State, t: State)
    requires Core(s)
    requires t.writers == s.writers && t.completions == s.completions && t.stopped == s.stopped
    requires t.outQueue == s.outQueue && t.outWriterTask == s.outWriterTask && t.outWriterWs == s.outWriterWs
    requires t.websocket == s.websocket && (t.attach == s.attach || t.attach.Idle?)
    ensures Core(t)
  {
  }

  lemma StoppingKeepsLinks(ws: seq<Writer>, task: Option<nat>, owner: Option<Socket>, stopped: set<Socket>, socket: Socket)
    requires LinksOk(ws, task, owner, stopped) && Attached(ws, socket) && LetGo(ws, task, socket)
    ensures LinksOk(ws, task, owner, stopped + {socket})
  {
  }

  lemma SameLogKeepsCompletions(ws: seq<Writer>, cs: seq<Completion>, i: nat, w: Writer)
    requires CompletionsOk(ws, cs) && i < |ws|
    requires w.log == ws[i].log && w.acked == ws[i].acked
    requires w.phase.Finished? == ws[i].phase.Finished?
    ensures CompletionsOk(ws[i := w], cs)
  {
  }
}
