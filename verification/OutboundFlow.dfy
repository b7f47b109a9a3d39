/** Bytes through the output path: what is pending, who holds it, when the reader runs, and
    that every socket's frames follow the PTY output. */
module OutboundFlow {
  import opened Common
  import opened OutboundModel
  import opened OutboundSums
  import opened OutboundInvariant

  /** The most a reader may leave pending: one byte short of the mark, plus one full read. */
  const BACKLOG: nat := OUTPUT_HIGH_WATERMARK + READ_CHUNK - 1

  ghost predicate AccountOk(s: State) {
    s.pendingBytes == TotalHeld(s.writers)
  }

  /** Backpressure, and no lost resume: a live reader is registered or paused. */
  ghost predicate ReaderOk(s: State) {
    && !(s.reader.registered && s.reader.paused)
    && (s.reader.registered ==> s.fdOpen && s.pendingBytes < OUTPUT_HIGH_WATERMARK)
    && (s.reader.paused ==> s.fdOpen && s.pendingBytes > OUTPUT_LOW_WATERMARK)
    && (s.alive ==> s.fdOpen)
    && (s.alive && !s.terminating && !s.exitScheduled ==> s.reader.registered || s.reader.paused)
  }

  /** PTY output on its way to the socket this writer serves. */
  predicate Live(w: Writer, i: nat, task: Option<nat>, websocket: Option<Socket>) {
    task == Some(i) && websocket == Some(w.ws)
  }

  /** What the socket of a writer is owed: the replay, then all output read since. */
  function Owed(w: Writer, output: seq<byte>): seq<byte>
    requires w.start <= |output|
  {
    w.replay + output[w.start..]
  }

  ghost predicate StreamOk(w: Writer, output: seq<byte>, live: bool) {
    && w.start <= |output|
    && w.replay == Last(output[..w.start], BUFFER_LIMIT)
    && BytesOf(w.log) <= Owed(w, output)
    && (live ==> BytesOf(w.log) == Owed(w, output))
  }

  ghost predicate StreamsOk(ws: seq<Writer>, output: seq<byte>, task: Option<nat>, websocket: Option<Socket>) {
    forall i :: 0 <= i < |ws| ==> StreamOk(ws[i], output, Live(ws[i], i, task, websocket))
  }

  ghost predicate StreamOrderOk(s: State) {
    && s.buffer == Last(s.output, BUFFER_LIMIT)
    && StreamsOk(s.writers, s.output, s.outWriterTask, s.websocket)
  }

  ghost predicate BacklogOk(ws: seq<Writer>, n: nat) {
    && StaleHeld(ws, n) <= BACKLOG
    && forall i :: 0 <= i < |ws| && !Stale(ws[i], n) ==> Held(ws[i]) <= BUFFER_LIMIT
  }

  ghost predicate Flow(s: State) {
    AccountOk(s) && ReaderOk(s) && StreamOrderOk(s) && BacklogOk(s.writers, |s.output|)
  }

  ghost predicate Inv(s: State) {
    Core(s) && Flow(s)
  }

  lemma SpawnedInv()
    ensures Inv(Spawned())
  {
  }

  // ---- The byte stream of each socket ------------------------------------------------------

  /** Same history of a writer, whatever else changes about it. */
  predicate SameHistory(w: Writer, v: Writer) {
    v.log == w.log && v.start == w.start && v.replay == w.replay && v.ws == w.ws
  }

  predicate SameHistories(ws: seq<Writer>, vs: seq<Writer>) {
    |ws| == |vs| && forall i :: 0 <= i < |ws| ==> SameHistory(ws[i], vs[i])
  }

  /** A socket that is let go of keeps a prefix of its stream. */
  lemma DetachingKeepsStreams(ws: seq<Writer>, vs: seq<Writer>, output: seq<byte>,
      task: Option<nat>, websocket: Option<Socket>, task': Option<nat>, websocket': Option<Socket>)
    requires StreamsOk(ws, output, task, websocket) && SameHistories(ws, vs)
    requires (task' == task || task'.None?) && (websocket' == websocket || websocket'.None?)
    ensures StreamsOk(vs, output, task', websocket')
  {
  }

  /** Text and close frames ride along without touching the byte stream. */
  lemma ControlKeepsStreams(ws: seq<Writer>, i: nat, item: Item, output: seq<byte>,
      task: Option<nat>, websocket: Option<Socket>)
    requires StreamsOk(ws, output, task, websocket) && i < |ws| && !item.frame.Data?
    ensures StreamsOk(ws[i := Push(ws[i], item)], output, task, websocket)
  {
    SizeOfAppend(ws[i].log, item);
    assert StreamOk(ws[i], output, Live(ws[i], i, task, websocket));
  }

  lemma GrowingKeepsStream(w: Writer, output: seq<byte>, data: seq<byte>, live: bool)
    requires StreamOk(w, output, live)
    ensures StreamOk(w, output + data, false)
    ensures Owed(w, output + data) == Owed(w, output) + data
  {
    assert (output + data)[..w.start] == output[..w.start];
    assert (output + data)[w.start..] == output[w.start..] + data;
  }

  /** Output nobody is attached for leaves every stream a prefix of what it was owed. */
  lemma UnheardKeepsStreams(ws: seq<Writer>, output: seq<byte>, data: seq<byte>,
      task: Option<nat>, websocket: Option<Socket>)
    requires StreamsOk(ws, output, task, websocket)
    requires task.None? || websocket.None?
    ensures StreamsOk(ws, output + data, task, websocket)
  {
    forall i | 0 <= i < |ws| ensures StreamOk(ws[i], output + data, Live(ws[i], i, task, websocket)) {
      GrowingKeepsStream(ws[i], output, data, Live(ws[i], i, task, websocket));
    }
  }

  /** Output queued for the attached socket keeps its stream exact. */
  lemma HeardKeepsStreams(ws: seq<Writer>, i: nat, output: seq<byte>, data: seq<byte>,
      websocket: Option<Socket>)
    requires StreamsOk(ws, output, Some(i), websocket)
    requires i < |ws| && websocket == Some(ws[i].ws)
    ensures StreamsOk(ws[i := Push(ws[i], Item(Data(data), None))], output + data, Some(i), websocket)
  {
    var vs := ws[i := Push(ws[i], Item(Data(data), None))];
    forall j | 0 <= j < |vs| ensures StreamOk(vs[j], output + data, Live(vs[j], j, Some(i), websocket)) {
      GrowingKeepsStream(ws[j], output, data, Live(ws[j], j, Some(i), websocket));
      if j == i {
        SizeOfAppend(ws[i].log, Item(Data(data), None));
      }
    }
  }

  /** A fresh writer whose log is exactly the replay starts an exact stream. */
  lemma FreshStreamOk(w: Writer, output: seq<byte>)
    requires w.start == |output| && w.replay == Last(output, BUFFER_LIMIT) && BytesOf(w.log) == w.replay
    ensures StreamOk(w, output, true)
  {
    assert output[..|output|] == output;
  }

  lemma AddingKeepsStreams(ws: seq<Writer>, w: Writer, output: seq<byte>,
      task: Option<nat>, websocket: Option<Socket>)
    requires StreamsOk(ws, output, task, websocket) && StreamOk(w, output, true)
    ensures StreamsOk(ws + [w], output, Some(|ws|), Some(w.ws))
  {
  }

  // ---- The pending counter -----------------------------------------------------------------

  lemma PushHolds(w: Writer, item: Item)
    ensures Held(Push(w, item)) == Held(w) + Size(item)
  {
    SizeOfAppend(w.queue, item);
  }

  lemma PutAccounts(s: State, i: nat, frame: Frame, wanted: bool)
    requires AccountOk(s) && i < |s.writers|
    ensures AccountOk(Put(s, i, frame, wanted))
  {
    PushHolds(s.writers[i], NewItem(s, frame, wanted));
    TotalHeldUpdate(s.writers, i, Push(s.writers[i], NewItem(s, frame, wanted)));
  }

  /** No writer holds more than before and none got younger. */
  lemma LighterKeepsBacklog(ws: seq<Writer>, vs: seq<Writer>, n: nat)
    requires BacklogOk(ws, n) && |ws| == |vs|
    requires forall i :: 0 <= i < |ws| ==> vs[i].start == ws[i].start && Held(vs[i]) <= Held(ws[i])
    ensures BacklogOk(vs, n)
  {
    StaleHeldShrinks(ws, vs, n);
  }

  lemma ControlKeepsBacklog(ws: seq<Writer>, i: nat, item: Item, n: nat)
    requires BacklogOk(ws, n) && i < |ws| && !item.frame.Data?
    ensures BacklogOk(ws[i := Push(ws[i], item)], n)
  {
    PushHolds(ws[i], item);
    LighterKeepsBacklog(ws, ws[i := Push(ws[i], item)], n);
  }

  /** After a read no writer counts as attached since the last read. */
  lemma ReadingResetsBacklog(ws: seq<Writer>, n: nat)
    requires TotalHeld(ws) <= BACKLOG && forall i :: 0 <= i < |ws| ==> ws[i].start < n
    ensures BacklogOk(ws, n)
  {
    StaleHeldAtMostTotal(ws, n);
  }

  lemma AddingKeepsBacklog(ws: seq<Writer>, w: Writer, n: nat)
    requires BacklogOk(ws, n) && w.start == n && Held(w) <= BUFFER_LIMIT
    ensures BacklogOk(ws + [w], n)
  {
    StaleHeldAppend(ws, w, n);
  }

  // ---- The reader --------------------------------------------------------------------------

  predicate SameReader(s: State, t: State) {
    && t.reader == s.reader
    && t.fdOpen == s.fdOpen && t.alive == s.alive
    && t.terminating == s.terminating && t.exitScheduled == s.exitScheduled
  }

  /** Checking the high mark right after charging keeps the reader's promise. */
  lemma PauseRestoresReader(s: State, higher: State)
    requires ReaderOk(s) && SameReader(s, higher) && higher.pendingBytes >= s.pendingBytes
    ensures ReaderOk(PauseIfHigh(higher))
  {
  }

  /** When bytes have left, checking the low mark is enough to restore the reader. */
  lemma ResumeRestoresReader(s: State, lower: State)
    requires ReaderOk(s) && SameReader(s, lower) && lower.pendingBytes <= s.pendingBytes
    ensures ReaderOk(ResumeIfLow(lower))
  {
  }
}
