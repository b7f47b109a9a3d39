/** How many writers may be active at once, and what that means for a socket that is being
    closed: exactly when the session's own writer is the only one, and exactly when a frame may
    still follow a close. */
module OutboundHandOver {
  import opened Common
  import opened OutboundModel
  import opened OutboundInvariant
  import opened OutboundCore
  import opened OutboundFlow
  import opened OutboundSteps
  import opened OutboundHistory
  import opened OutboundTheorems

  // ---- One active writer -------------------------------------------------------------------

  /** Only the session's own writer may still begin frames. */
  predicate OneActive(s: State) {
    forall i :: 0 <= i < |s.writers| ==> Retired(s.writers[i]) || s.outWriterTask == Some(i)
  }

  /** No `attach` of the run begins while the session, without a socket, has a writer that is
      neither cancelled nor finished: an end or idle expiry was cancelled during its farewell. */
  ghost predicate Orderly(s: State, steps: seq<Step>)
    decreases |steps|
  {
    steps == [] ||
    (&& Enabled(s, steps[0])
     && (steps[0].AttachBegins? ==> s.websocket.Some? || CurrentRetired(s))
     && Orderly(Next(s, steps[0]), steps[1..]))
  }

  ghost predicate AlwaysOneActive(s: State, steps: seq<Step>)
    decreases |steps|
  {
    OneActive(s) && (steps == [] || (Enabled(s, steps[0]) && AlwaysOneActive(Next(s, steps[0]), steps[1..])))
  }

  /** The session keeps its writer, or forgets one that has finished. */
  predicate KeepsTask(s: State, t: State) {
    && |t.writers| == |s.writers|
    && (t.outWriterTask == s.outWriterTask ||
        (t.outWriterTask.None? && (s.outWriterTask.Some? && s.outWriterTask.value < |t.writers| ==>
           Retired(t.writers[s.outWriterTask.value]))))
  }

  lemma EnqueueKeepsTask(s: State, frame: Frame, wanted: bool)
    requires QueueExists(s)
    ensures var t := Enqueue(s, frame, wanted); KeepsTask(s, t) && t.outWriterTask == s.outWriterTask && QueueExists(t)
  {
  }

  lemma FarewellKeepsTask(s: State, text: string, code: int, reason: string)
    requires QueueExists(s)
    ensures KeepsTask(s, Farewell(s, text, code, reason))
  {
    if s.websocket.Some? {
      EnqueueKeepsTask(s.(websocket := None), Text(text), false);
      EnqueueKeepsTask(Enqueue(s.(websocket := None), Text(text), false), Close(code, reason), true);
    }
  }

  lemma FinishKeepsTask(s: State, i: nat)
    requires i < |s.writers|
    ensures KeepsTask(s, FinishWriter(s, i))
  {
  }

  lemma DropKeepsTask(s: State, ws: Socket)
    requires TaskExists(s)
    ensures KeepsTask(s, StopWriter(s, ws)) && KeepsTask(s, DropSocket(s, ws))
  {
  }

  lemma ReplacedKeepsTask(s: State)
    requires TaskExists(s)
    ensures KeepsTask(s, AfterReplaced(s))
  {
    if s.websocket.Some? {
      DropKeepsTask(s, s.websocket.value);
    }
  }

  lemma CancelKeepsTask(s: State)
    requires Enabled(s, AttachCancelled)
    ensures KeepsTask(s, AfterAttachCancelled(s))
  {
    if s.attach.Replaying? {
      var abandoned := s.(completions := Settle(s.completions, Some(s.attach.done), Abandoned), attach := Idle);
      DropKeepsTask(abandoned, s.attach.ws);
    }
  }

  lemma ReadKeepsTask(s: State, result: ReadResult)
    requires QueueExists(s)
    ensures KeepsTask(s, AfterPtyReadable(s, result))
  {
    if result.Chunk? {
      EnqueueKeepsTask(Grown(s, result.data), Data(result.data), false);
    }
  }

  lemma ExitKeepsTask(s: State, text: string, reason: string)
    requires QueueExists(s)
    ensures KeepsTask(s, AfterChildExits(s, text, reason))
  {
    FarewellKeepsTask(CleanupFd(s.(alive := false)), text, 1000, reason);
  }

  lemma WriterKeepsTask(s: State, step: Step)
    requires IsWriterStep(step) && Enabled(s, step)
    ensures KeepsTask(s, Next(s, step))
  {
    match step
    case WriterTakes(i) =>
    case WriterSent(i) => SentEffect(s, i);
    case WriterFails(i) => FinishKeepsTask(s, i);
  }

  lemma StepKeepsTask(s: State, step: Step)
    requires Enabled(s, step) && !step.AttachInstalls? && (step.AttachBegins? ==> s.websocket.Some?)
    ensures KeepsTask(s, Next(s, step))
  {
    match step
    case PtyReadable(result) => ReadKeepsTask(s, result);
    case WriterTakes(i) => WriterKeepsTask(s, step);
    case WriterSent(i) => WriterKeepsTask(s, step);
    case WriterFails(i) => WriterKeepsTask(s, step);
    case AttachBegins(ws) => DropKeepsTask(s.(websocket := None), s.websocket.value);
    case AttachClosesOld =>
    case AttachReturns =>
    case AttachCancelled => CancelKeepsTask(s);
    case Detaches(ws) => DropKeepsTask(s, ws);
    case SendsStatus(text) => EnqueueKeepsTask(s, Text(text), false);
    case ClosesAttached(ws, code, reason) => EnqueueKeepsTask(s, Close(code, reason), true);
    case CloseTimesOut(ws) => DropKeepsTask(s, ws);
    case ClosesDirectly(ws) =>
    case ChildExits(text, reason) => ExitKeepsTask(s, text, reason);
    case EndNotifies(text, code, reason) => FarewellKeepsTask(s.(ending := true), text, code, reason);
    case Replaced => ReplacedKeepsTask(s);
    case EndCancelled =>
    case TerminateBegins =>
    case TerminateEnds =>
  }

  lemma InstallAddsOne(s: State, ws: Socket)
    requires OneActive(s) && TaskExists(s)
    ensures OneActive(Install(s, ws)) <==> CurrentRetired(s)
  {
    InstallOpens(s, ws);
    var t := Install(s, ws);
    assert t.writers == s.writers + [Opened(s, ws)];
    if s.outWriterTask.Some? && s.outWriterTask.value < |s.writers| {
      assert t.writers[s.outWriterTask.value] == s.writers[s.outWriterTask.value];
    }
  }

  /** A step adds a second active writer exactly if it is such an `attach`. */
  lemma StepKeepsOneActive(s: State, step: Step)
    requires Inv(s) && Enabled(s, step) && OneActive(s)
    ensures OneActive(Next(s, step)) <==> (step.AttachBegins? ==> s.websocket.Some? || CurrentRetired(s))
  {
    var t := Next(s, step);
    if step.AttachInstalls? {
      InstallAddsOne(s, s.attach.ws);
    } else if step.AttachBegins? && s.websocket.None? {
      InstallAddsOne(s, step.ws);
    } else {
      StepKeepsTask(s, step);
      StepGrows(s, step);
      forall i | 0 <= i < |t.writers| ensures Retired(t.writers[i]) || t.outWriterTask == Some(i) {
        assert WriterGrows(s.writers[i], t.writers[i]);
      }
    }
  }

  lemma {:induction false} OneActiveFrom(s: State, steps: seq<Step>, t: State)
    requires Inv(s) && OneActive(s) && Run(s, steps, t)
    ensures AlwaysOneActive(s, steps) <==> Orderly(s, steps)
    ensures Orderly(s, steps) ==> OneActive(t)
    decreases |steps|
  {
    if steps != [] {
      StepKeepsOneActive(s, steps[0]);
      StepKeepsInv(s, steps[0]);
      if OneActive(Next(s, steps[0])) {
        OneActiveFrom(Next(s, steps[0]), steps[1..], t);
      }
    }
  }

  /** In every run: at most one writer is ever active, exactly if every `attach` that finds the
      session without a socket also finds its writer cancelled or finished. */
  lemma HandOverExactly(steps: seq<Step>, t: State)
    requires Run(Spawned(), steps, t)
    ensures AlwaysOneActive(Spawned(), steps) <==> Orderly(Spawned(), steps)
    ensures Orderly(Spawned(), steps) ==> OneActive(t)
  {
    SpawnedInv();
    OneActiveFrom(Spawned(), steps, t);
  }

  // The run of a cancelled end, state by state: a first socket is attached, the end says farewell
  // and is cancelled, and a second socket is attached.

  const NEW := Writer(1, [], Waiting, false, [], 0, 0, false, [], 0)
  const FIRST := Spawned().(websocket := Some(1), outQueue := Some(0), outWriterTask := Some(0),
                            outWriterWs := Some(1), writers := [NEW])
  const FAREWELL: seq<Item> := [Item(Text(""), None), Item(Close(0, ""), Some(0))]
  const LEAVING := NEW.(queue := FAREWELL, log := FAREWELL)
  const LET_GO := FIRST.(websocket := None, writers := [LEAVING], completions := [Completion(0, 1, Pending)])
  const TWO := LET_GO.(websocket := Some(2), outQueue := Some(1), outWriterTask := Some(1),
                       outWriterWs := Some(2), writers := [LEAVING, NEW.(ws := 2)])

  lemma AttachesFirst()
    ensures Enabled(Spawned(), AttachBegins(1)) && Next(Spawned(), AttachBegins(1)) == FIRST
  {
    assert Publish(Spawned(), 1).writers == [NEW];
  }

  lemma SaysFarewell()
    ensures Enabled(FIRST, EndNotifies("", 0, ""))
    ensures Next(FIRST, EndNotifies("", 0, "")) == LET_GO.(ending := true)
  {
    var a := FIRST.(ending := true, websocket := None);
    var b := Put(a, 0, Text(""), false);
    assert [] + [FAREWELL[0]] == [FAREWELL[0]] && [FAREWELL[0]] + [FAREWELL[1]] == FAREWELL;
    assert NewItem(a, Text(""), false) == FAREWELL[0];
    assert b.writers == [NEW.(queue := [FAREWELL[0]], log := [FAREWELL[0]])];
    assert b.completions == [];
    var c := Put(b, 0, Close(0, ""), true);
    assert NewItem(b, Close(0, ""), true) == FAREWELL[1];
    assert c.writers == [LEAVING];
    assert c.completions == [Completion(0, 1, Pending)];
  }

  lemma AttachesSecond()
    ensures Enabled(LET_GO, AttachBegins(2)) && Next(LET_GO, AttachBegins(2)) == TWO
  {
    assert !Attached(LET_GO.writers, 2);
    assert Publish(LET_GO, 2).writers == TWO.writers;
  }

  /** Such an `attach` does occur: the end is cancelled while it waits for its close, the session
      lives on, and the next socket's writer joins the first. */
  lemma CancelledEndLeavesTwo() returns (steps: seq<Step>)
    ensures Run(Spawned(), steps, TWO) && !OneActive(TWO) && !Quiet(TWO.writers[0])
  {
    AttachesFirst();
    SaysFarewell();
    AttachesSecond();
    assert Run(TWO, [], TWO);
    RunStep(LET_GO, AttachBegins(2), [], TWO);
    steps := [AttachBegins(2)] + [];
    assert Next(LET_GO.(ending := true), EndCancelled) == LET_GO;
    RunStep(LET_GO.(ending := true), EndCancelled, steps, TWO);
    steps := [EndCancelled] + steps;
    RunStep(FIRST, EndNotifies("", 0, ""), steps, TWO);
    steps := [EndNotifies("", 0, "")] + steps;
    RunStep(Spawned(), AttachBegins(1), steps, TWO);
    steps := [AttachBegins(1)] + steps;
    assert !Retired(TWO.writers[0]);
  }

  lemma RunStep(s: State, step: Step, rest: seq<Step>, t: State)
    requires Enabled(s, step) && Run(Next(s, step), rest, t)
    ensures Run(s, [step] + rest, t)
  {
    assert ([step] + rest)[1..] == rest;
  }

  // ---- Frames after a close ----------------------------------------------------------------

  /** A writer that is quiet begins no frame in any continuation of any run. */
  lemma QuietStaysQuiet(s: State, steps: seq<Step>, t: State, i: nat)
    requires Reachable(s) && Run(s, steps, t) && i < |s.writers| && Quiet(s.writers[i])
    ensures i < |t.writers| && t.writers[i].ws == s.writers[i].ws && Quiet(t.writers[i])
    ensures t.writers[i].begun == s.writers[i].begun
  {
    ReachableInv(s);
    RunGrows(s, steps, t);
    assert WriterGrows(s.writers[i], t.writers[i]);
  }

  /** Once any task has begun to close a socket, no later step of any run begins a frame on it,
      if every `attach` so far that found no socket found no active writer either. */
  lemma NoSendAfterClose(before: seq<Step>, s: State, steps: seq<Step>, t: State, i: nat)
    requires Run(Spawned(), before, s) && Orderly(Spawned(), before) && Run(s, steps, t)
    requires i < |s.writers| && s.writers[i].closeBegun
    ensures i < |t.writers| && t.writers[i].ws == s.writers[i].ws
    ensures t.writers[i].closeBegun && t.writers[i].begun == s.writers[i].begun
  {
    HandOverExactly(before, s);
    assert Reachable(s);
    ReachableInv(s);
    assert Quiet(s.writers[i]);
    QuietStaysQuiet(s, steps, t, i);
    RunGrows(s, steps, t);
    assert WriterGrows(s.writers[i], t.writers[i]);
  }

  /** Some run goes on to begin a frame of this writer. */
  ghost predicate MayBegin(s: State, i: nat)
    requires i < |s.writers|
  {
    exists steps, t :: Run(s, steps, t) && i < |t.writers| && t.writers[i].begun > s.writers[i].begun
  }

  lemma TakeBegins(s: State, i: nat)
    requires Inv(s) && i < |s.writers| && s.writers[i].phase.Waiting? && !Retired(s.writers[i])
    requires Leaving(s.writers[i])
    ensures Enabled(s, WriterTakes(i)) && Next(s, WriterTakes(i)).writers[i].begun == s.writers[i].begun + 1
  {
    assert FramesOk(s.writers[i]);
  }

  /** In any reachable state, a socket whose close has begun may still get a frame exactly if its
      writer is neither cancelled nor finished nor sending the close itself. */
  lemma FrameAfterCloseExactly(s: State, i: nat)
    requires Reachable(s) && i < |s.writers| && s.writers[i].closeBegun
    ensures MayBegin(s, i) <==> !Quiet(s.writers[i])
  {
    ReachableInv(s);
    if Quiet(s.writers[i]) {
      forall steps, t | Run(s, steps, t) && i < |t.writers| ensures t.writers[i].begun <= s.writers[i].begun {
        QuietStaysQuiet(s, steps, t, i);
      }
    } else if s.writers[i].phase.Waiting? {
      TakeBegins(s, i);
      var t := Next(s, WriterTakes(i));
      assert Run(t, [], t);
      RunStep(s, WriterTakes(i), [], t);
    } else {
      SentThenTakes(s, i);
    }
  }

  /** A send that returns leaves an active writer waiting, with the close still to come. */
  lemma SendReturns(s: State, i: nat)
    requires Inv(s) && i < |s.writers| && s.writers[i].phase.Sending? && !Quiet(s.writers[i])
    requires Leaving(s.writers[i])
    ensures Enabled(s, WriterSent(i))
    ensures var m := Next(s, WriterSent(i));
            && i < |m.writers| && m.writers[i].phase.Waiting? && !Retired(m.writers[i]) && Leaving(m.writers[i])
            && m.writers[i].begun == s.writers[i].begun
  {
    assert FramesOk(s.writers[i]);
    AcknowledgeKeepsCompletions(s.writers, s.completions, i);
    SentEffect(s, i);
    AcknowledgeRetires(s.writers[i]);
  }

  lemma SentThenTakes(s: State, i: nat)
    requires Inv(s) && i < |s.writers| && s.writers[i].phase.Sending? && !Quiet(s.writers[i])
    requires Leaving(s.writers[i])
    ensures MayBegin(s, i)
  {
    SendReturns(s, i);
    StepKeepsInv(s, WriterSent(i));
    var m := Next(s, WriterSent(i));
    TakeBegins(m, i);
    BeginsNext(s, m, i);
  }

  lemma BeginsNext(s: State, m: State, i: nat)
    requires Enabled(s, WriterSent(i)) && m == Next(s, WriterSent(i)) && Enabled(m, WriterTakes(i))
    requires i < |s.writers| && m.writers[i].begun == s.writers[i].begun
    ensures MayBegin(s, i)
  {
    var t := Next(m, WriterTakes(i));
    assert Run(t, [], t);
    RunStep(m, WriterTakes(i), [], t);
    RunStep(s, WriterSent(i), [WriterTakes(i)] + [], t);
  }

  /** After the cancelled end, the first socket's watchdog closes it directly, although its writer
      still has frames to send. */
  lemma CancelledEndAllowsFrames() returns (steps: seq<Step>, t: State)
    ensures Run(Spawned(), steps, t) && |t.writers| == 2 && t.writers[0].closeBegun && MayBegin(t, 0)
  {
    steps := CancelledEndLeavesTwo();
    var close := ClosesAttached(1, 4401, "");
    assert Attached(TWO.writers, 1) by { assert TWO.writers[0].ws == 1; }
    t := Next(TWO, close);
    assert t.writers[0] == LEAVING.(closeBegun := true);
    assert Run(t, [], t);
    RunStep(TWO, close, [], t);
    RunConcat(Spawned(), steps, TWO, [close] + [], t);
    steps := steps + ([close] + []);
    assert Reachable(t);
    FrameAfterCloseExactly(t, 0);
  }

  lemma {:induction false} RunConcat(s: State, first: seq<Step>, m: State, second: seq<Step>, t: State)
    requires Run(s, first, m) && Run(m, second, t)
    ensures Run(s, first + second, t)
    decreases |first|
  {
    if first == [] {
      assert first + second == second;
    } else {
      RunConcat(Next(s, first[0]), first[1..], m, second, t);
      assert (first + second)[1..] == first[1..] + second;
    }
  }
}
