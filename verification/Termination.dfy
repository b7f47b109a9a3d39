/** The end of one spawned session: any number of overlapping `terminate` calls, the natural
    exit seen as EOF on the PTY, and the child itself. Each step is what the event loop runs
    between two awaits. */
module Termination {
  // ---- One call of terminate ---------------------------------------------------------------

  datatype Signal = Hangup | Terminate | Kill

  const ESCALATION: seq<Signal> := [Hangup, Terminate, Kill]

  /** Polls per stage: `int(seconds * 10)` for SIGHUP_WAIT = 2, SIGTERM_WAIT - SIGHUP_WAIT = 8
      and the last second. */
  function Limit(stage: nat): nat {
    if stage == 0 then 20 else if stage == 1 then 80 else 10
  }

  const ALL_POLLS: nat := 110

  /** stop.sh polls the server this often, at the same 0.1 s, before it resorts to SIGKILL. */
  const STOP_SCRIPT_POLLS: nat := 200

  /** Where a call is: `polls` looks at the child in this stage ended in a 0.1 s sleep. */
  datatype Call = Call(stage: nat, polls: nat, sent: seq<Signal>, sleeps: nat, done: bool)

  const FRESH := Call(0, 0, [Hangup], 0, false)
  const REFUSED := Call(0, 0, [], 0, true)   // the session was not alive any more

  /** Whether the resumed call looks at the child again, perhaps after a further signal. */
  predicate Looks(call: Call) {
    call.polls < Limit(call.stage) || call.stage < 2
  }

  function Slept(call: Call): Call {
    call.(polls := call.polls + 1, sleeps := call.sleeps + 1)
  }

  function Escalated(call: Call): Call {
    call.(stage := call.stage + 1, polls := 0,
          sent := call.sent + [if call.stage == 0 then Terminate else Kill])
  }

  /** The call resumes; `ended` is what its look at the session tells it. */
  function Advance(call: Call, ended: bool): Call {
    var now := if call.polls < Limit(call.stage) || call.stage >= 2 then call else Escalated(call);
    if ended || !Looks(call) then now.(done := true) else Slept(now)
  }

  /** `terminate` and `_wait_reaped` as the loops they are, given what each look finds. */
  function Played(call: Call, looks: seq<bool>): Call
    decreases |looks|
  {
    if call.done || looks == [] then call else Played(Advance(call, looks[0]), looks[1..])
  }

  lemma {:induction false} PlayedSnoc(call: Call, looks: seq<bool>, last: bool)
    ensures Played(call, looks + [last]) ==
            (if Played(call, looks).done then Played(call, looks) else Advance(Played(call, looks), last))
    decreases |looks|
  {
    if !call.done && looks != [] {
      PlayedSnoc(Advance(call, looks[0]), looks[1..], last);
      assert (looks + [last])[1..] == looks[1..] + [last];
    } else if !call.done {
      assert (looks + [last])[1..] == [];
    } else {
      assert Played(call, looks + [last]) == call;
    }
  }

  // ---- The session ---------------------------------------------------------------------------

  datatype Child = Running | Zombie | Reaped

  /** The task made on EOF. */
  datatype Exit = NoExit | Scheduled | Closing(wasLive: bool) | Finished

  datatype State = State(
    alive: bool,
    terminating: bool,
    fdOpen: bool,
    reader: bool,
    paused: bool,
    writer: bool,
    child: Child,
    exit: Exit,
    calls: seq<Call>,
    notified: nat,      // trace: _notify_state_changed
    reaps: nat,         // trace: waitpid returned the pid
    strayWaits: nat,    // trace: waitpid raised ChildProcessError
    closes: nat)        // trace: os.close on the master

  const SPAWNED := State(true, false, true, true, false, false, Running, NoExit, [], 0, 0, 0, 0)

  predicate Live(s: State) {
    s.alive && !s.terminating
  }

  function Cleaned(s: State): State {
    if !s.fdOpen then s
    else s.(fdOpen := false, reader := false, paused := false, writer := false, closes := s.closes + 1)
  }

  /** waitpid with WNOHANG. */
  function Waited(s: State): State {
    match s.child
    case Running => s
    case Zombie => s.(child := Reaped, reaps := s.reaps + 1)
    case Reaped => s.(strayWaits := s.strayWaits + 1)
  }

  /** waitpid without it: the segment lasts until the child is dead. */
  function WaitedLong(s: State): State {
    if s.child.Reaped? then s.(strayWaits := s.strayWaits + 1)
    else s.(child := Reaped, reaps := s.reaps + 1)
  }

  function EndCall(s: State, c: nat, call: Call): State
    requires c < |s.calls|
  {
    Cleaned(s.(alive := false, calls := s.calls[c := call]))
  }

  /** A segment of `_wait_reaped`, with what `terminate` does around it. */
  function Polled(s: State, c: nat): State
    requires c < |s.calls|
  {
    var call := s.calls[c];
    if !Looks(call) then EndCall(s, c, Advance(call, false))
    else if !s.alive then EndCall(s, c, Advance(call, true))
    else if s.child.Running? then s.(calls := s.calls[c := Advance(call, false)])
    else EndCall(Waited(s), c, Advance(call, true))
  }

  /** `terminate` up to its first look. */
  function Admitted(s: State): State {
    s.(terminating := true,
       notified := s.notified + (if s.terminating then 0 else 1),
       calls := s.calls + [FRESH])
  }

  function AfterTerminate(s: State): State {
    if !s.alive then s.(calls := s.calls + [REFUSED])
    else Polled(Admitted(s), |s.calls|)
  }

  function AfterEof(s: State): State {
    s.(reader := false, exit := if s.exit.NoExit? then Scheduled else s.exit)
  }

  /** `_handle_exit` up to its wait for the socket, or to its end when none is attached. */
  function AfterExitBegins(s: State, attached: bool): State {
    if !s.alive then s.(exit := Finished)
    else
      var t := WaitedLong(Cleaned(s.(alive := false, exit := Closing(!s.terminating))));
      if attached then t else AfterExitEnds(t)
  }

  function AfterExitEnds(s: State): State
    requires s.exit.Closing?
  {
    s.(exit := Finished, notified := s.notified + if s.exit.wasLive then 1 else 0)
  }

  datatype Step =
    | ChildDies
    | Begins                      // some task calls terminate
    | Resumes(call: nat)          // its sleep is over
    | SeesEof
    | ExitBegins(attached: bool)
    | ExitEnds
    | Pauses                      // backpressure from the output path
    | Unpauses
    | Blocks                      // the input path waits for the PTY
    | Drains

  predicate Enabled(s: State, step: Step) {
    match step
    case ChildDies => s.child.Running?
    case Begins => true
    case Resumes(c) => c < |s.calls| && !s.calls[c].done
    case SeesEof => s.fdOpen && s.reader
    case ExitBegins(_) => s.exit.Scheduled?
    case ExitEnds => s.exit.Closing?
    case Pauses => true
    case Unpauses => true
    case Blocks => s.fdOpen
    case Drains => s.fdOpen
  }

  function Next(s: State, step: Step): State
    requires Enabled(s, step)
  {
    match step
    case ChildDies => s.(child := Zombie)
    case Begins => AfterTerminate(s)
    case Resumes(c) => Polled(s, c)
    case SeesEof => AfterEof(s)
    case ExitBegins(attached) => AfterExitBegins(s, attached)
    case ExitEnds => AfterExitEnds(s)
    case Pauses => if s.paused || !s.fdOpen then s else s.(reader := false, paused := true)
    case Unpauses =>
      if !s.paused then s
      else s.(reader := s.reader || (Live(s) && s.fdOpen), paused := false)
    case Blocks => s.(writer := true)
    case Drains => s.(writer := false)
  }

  ghost predicate Run(s: State, steps: seq<Step>, t: State)
    decreases |steps|
  {
    if steps == [] then s == t
    else Enabled(s, steps[0]) && Run(Next(s, steps[0]), steps[1..], t)
  }

  // ---- Invariant -----------------------------------------------------------------------------

  /** A finished call has sent a prefix of the escalation; an unfinished one is asleep. */
  predicate CallOk(call: Call) {
    && call.stage <= 2
    && call.sleeps <= ALL_POLLS
    && (call.sent <= ESCALATION)
    && (call.done && call != REFUSED ==> call.sent == Due(call.sleeps + 1))
    && (!call.done ==>
          && call.sent == ESCALATION[..call.stage + 1]
          && call.polls <= Limit(call.stage)
          && call.sleeps == call.polls + (if call.stage == 0 then 0 else if call.stage == 1 then 20 else 100))
  }

  /** The signals that the session has had before a call sleeps for the n-th time, or looks then. */
  function Due(n: nat): seq<Signal> {
    if n <= 20 then [Hangup] else if n <= 100 then [Hangup, Terminate] else [Hangup, Terminate, Kill]
  }

  predicate GaveUp(call: Call) {
    call.done && call.sent == ESCALATION && call.sleeps == ALL_POLLS
  }

  predicate FdOk(s: State) {
    && s.fdOpen == s.alive
    && (s.reader || s.writer || s.paused ==> s.fdOpen)
    && !(s.reader && s.paused)
    && s.closes == if s.fdOpen then 0 else 1
  }

  ghost predicate ChildOk(s: State) {
    && s.strayWaits == 0
    && s.reaps == (if s.child.Reaped? then 1 else 0)
    && (s.alive ==> !s.child.Reaped?)
    && (!s.alive && !s.child.Reaped? ==> exists c :: 0 <= c < |s.calls| && GaveUp(s.calls[c]))
  }

  ghost predicate CallsOk(s: State) {
    && (forall c :: 0 <= c < |s.calls| ==> CallOk(s.calls[c]) && (!s.calls[c].done ==> s.calls[c].polls > 0))
    && (s.alive ==> (s.terminating <==> s.calls != []))
    && (s.alive ==> forall c :: 0 <= c < |s.calls| ==> !s.calls[c].done)
  }

  predicate NoticeOk(s: State) {
    && (s.exit.Closing? || s.exit.Finished? ==> !s.alive)
    && s.notified + (if s.exit == Closing(true) then 1 else 0) == (if Live(s) then 0 else 1)
  }

  ghost predicate Inv(s: State) {
    FdOk(s) && ChildOk(s) && CallsOk(s) && NoticeOk(s)
  }

  /** One resumption of one call, seen alone. */
  lemma AdvanceKeepsOk(call: Call, ended: bool)
    requires CallOk(call) && !call.done
    ensures CallOk(Advance(call, ended))
    ensures Advance(call, ended).done <==> ended || !Looks(call)
    ensures !Advance(call, ended).done ==> Advance(call, ended).polls > 0
    ensures !Advance(call, ended).done ==> Advance(call, ended).sleeps == call.sleeps + 1
    ensures !Looks(call) ==> GaveUp(Advance(call, ended)) && call.sleeps == ALL_POLLS
    ensures Looks(call) ==> call.sleeps < ALL_POLLS
  {
    assert ESCALATION[..1] == [Hangup] && ESCALATION[..2] == [Hangup] + [Terminate];
    assert ESCALATION[..3] == ESCALATION[..2] + [Kill];
  }

  /** A segment of a call: only its own record changes, and the session with it. */
  lemma PolledKeepsInv(s: State, c: nat)
    requires c < |s.calls| && s.terminating
    requires FdOk(s) && ChildOk(s) && NoticeOk(s)
    requires forall d :: 0 <= d < |s.calls| ==> CallOk(s.calls[d])
    requires forall d :: 0 <= d < |s.calls| && d != c ==> !s.calls[d].done ==> s.calls[d].polls > 0
    requires !s.calls[c].done
    requires s.alive ==> forall d :: 0 <= d < |s.calls| ==> !s.calls[d].done
    ensures Inv(Polled(s, c))
  {
    var t := Polled(s, c);
    AdvanceKeepsOk(s.calls[c], false);
    AdvanceKeepsOk(s.calls[c], true);
    assert forall d :: 0 <= d < |s.calls| && d != c ==> t.calls[d] == s.calls[d];
    if !s.alive && !s.child.Reaped? {
      var d :| 0 <= d < |s.calls| && GaveUp(s.calls[d]);
      assert GaveUp(t.calls[d]);
    }
    if !Looks(s.calls[c]) {
      assert GaveUp(t.calls[c]);
    }
  }

  lemma TerminateKeepsInv(s: State)
    requires Inv(s)
    ensures Inv(AfterTerminate(s))
  {
    var t := AfterTerminate(s);
    if !s.alive {
      if !s.child.Reaped? {
        var d :| 0 <= d < |s.calls| && GaveUp(s.calls[d]);
        assert GaveUp(t.calls[d]);
      }
    } else {
      assert ESCALATION[..1] == [Hangup];
      PolledKeepsInv(Admitted(s), |s.calls|);
    }
  }

  lemma StepKeepsInv(s: State, step: Step)
    requires Inv(s) && Enabled(s, step)
    ensures Inv(Next(s, step))
  {
    match step
    case Begins => TerminateKeepsInv(s);
    case Resumes(c) =>
      if s.alive {
        PolledKeepsInv(s, c);
      } else {
        DeadCallKeepsInv(s, c);
      }
    case _ =>
  }

  /** A call that outlives the session, ended by a sibling or by the natural exit. */
  lemma DeadCallKeepsInv(s: State, c: nat)
    requires Inv(s) && !s.alive && c < |s.calls| && !s.calls[c].done
    ensures Inv(Polled(s, c))
  {
    var t := Polled(s, c);
    AdvanceKeepsOk(s.calls[c], false);
    AdvanceKeepsOk(s.calls[c], true);
    assert forall d :: 0 <= d < |s.calls| && d != c ==> t.calls[d] == s.calls[d];
    if !s.child.Reaped? {
      var d :| 0 <= d < |s.calls| && GaveUp(s.calls[d]);
      assert GaveUp(t.calls[d]);
    }
  }

  lemma {:induction false} RunKeepsInv(s: State, steps: seq<Step>, t: State)
    requires Inv(s) && Run(s, steps, t)
    ensures Inv(t)
    decreases |steps|
  {
    if steps != [] {
      StepKeepsInv(s, steps[0]);
      RunKeepsInv(Next(s, steps[0]), steps[1..], t);
    }
  }

  // ---- Theorems ------------------------------------------------------------------------------

  /** How often the session stopped being live along a run. */
  function Falls(s: State, steps: seq<Step>): nat
    decreases |steps|
  {
    if steps == [] || !Enabled(s, steps[0]) then 0
    else
      var n := Next(s, steps[0]);
      (if Live(s) && !Live(n) then 1 else 0) + Falls(n, steps[1..])
  }

  /** Liveness falls at most once, and each fall is notified exactly once: at once, or when the
      natural exit has seen its socket off. */
  lemma {:induction false} EdgeFrom(s: State, steps: seq<Step>, t: State)
    requires Inv(s) && Run(s, steps, t)
    ensures Falls(s, steps) == (if Live(s) && !Live(t) then 1 else 0)
    ensures Live(t) ==> Live(s)
    decreases |steps|
  {
    if steps != [] {
      var n := Next(s, steps[0]);
      StepKeepsInv(s, steps[0]);
      NeverRevives(s, steps[0]);
      EdgeFrom(n, steps[1..], t);
    }
  }

  lemma NeverRevives(s: State, step: Step)
    requires Inv(s) && Enabled(s, step)
    ensures Live(Next(s, step)) ==> Live(s)
  {
  }

  lemma ExactlyOneNotification(steps: seq<Step>, t: State)
    requires Run(SPAWNED, steps, t)
    ensures Falls(SPAWNED, steps) <= 1
    ensures Falls(SPAWNED, steps) == 1 <==> !Live(t)
    ensures t.notified + (if t.exit == Closing(true) then 1 else 0) == Falls(SPAWNED, steps)
  {
    RunKeepsInv(SPAWNED, steps, t);
    EdgeFrom(SPAWNED, steps, t);
  }

  /** However many calls overlap with the natural exit: the child is waited for successfully at
      most once and never again after that, so the handlers of ChildProcessError never run; the
      master is closed exactly when the session is no longer alive, once; no callback stays on a
      closed fd; and a dead session's child has been reaped or a call escalated all the way. */
  lemma OverlappingTermination(steps: seq<Step>, t: State)
    requires Run(SPAWNED, steps, t)
    ensures t.reaps <= 1 && t.strayWaits == 0 && (t.reaps == 1 <==> t.child.Reaped?)
    ensures t.closes <= 1 && (t.closes == 1 <==> !t.alive) && (t.fdOpen <==> t.alive)
    ensures t.reader || t.writer || t.paused ==> t.fdOpen
    ensures !t.alive && !t.child.Reaped? ==> exists c :: 0 <= c < |t.calls| && GaveUp(t.calls[c])
    ensures forall c :: 0 <= c < |t.calls| ==> t.calls[c].sent <= ESCALATION
  {
    RunKeepsInv(SPAWNED, steps, t);
  }

  /** How often call `c` was resumed. */
  function Resumptions(steps: seq<Step>, c: nat): nat {
    if steps == [] then 0
    else Resumptions(steps[..|steps| - 1], c) + if steps[|steps| - 1] == Resumes(c) then 1 else 0
  }

  lemma {:induction false} RunInit(s: State, steps: seq<Step>, t: State) returns (m: State)
    requires Run(s, steps, t) && steps != []
    ensures Run(s, steps[..|steps| - 1], m) && Enabled(m, steps[|steps| - 1])
    ensures t == Next(m, steps[|steps| - 1])
    decreases |steps|
  {
    if |steps| == 1 {
      m := s;
      assert steps[..0] == [];
    } else {
      m := RunInit(Next(s, steps[0]), steps[1..], t);
      assert steps[1..][..|steps| - 2] == steps[..|steps| - 1][1..];
    }
  }

  /** What a step does to one record: a resumption advances its own, Begins adds one. */
  lemma CallAfterStep(s: State, step: Step, c: nat)
    requires Enabled(s, step)
    ensures var t := Next(s, step);
            && |t.calls| == |s.calls| + (if step.Begins? then 1 else 0)
            && (c < |s.calls| && step != Resumes(c) ==> t.calls[c] == s.calls[c])
            && (step == Resumes(c) ==> exists e :: t.calls[c] == Advance(s.calls[c], e))
            && (step.Begins? && c == |s.calls| ==>
                  t.calls[c] == REFUSED || exists e :: t.calls[c] == Advance(FRESH, e))
  {
    match step
    case Begins => BeginsAddsCall(s, c);
    case Resumes(d) => PolledChangesOwn(s, d, c);
    case _ =>
  }

  /** What the look in a segment tells the call. */
  predicate Finding(s: State, call: Call) {
    Looks(call) && (!s.alive || !s.child.Running?)
  }

  lemma PolledCalls(s: State, d: nat)
    requires d < |s.calls|
    ensures Polled(s, d).calls == s.calls[d := Advance(s.calls[d], Finding(s, s.calls[d]))]
  {
    if !Looks(s.calls[d]) {
    } else if !s.alive {
    } else if s.child.Running? {
    } else {
      assert Waited(s).calls == s.calls;
    }
  }

  lemma PolledChangesOwn(s: State, d: nat, c: nat)
    requires d < |s.calls|
    ensures var t := Polled(s, d);
            && |t.calls| == |s.calls|
            && (c < |s.calls| && c != d ==> t.calls[c] == s.calls[c])
            && (c == d ==> exists e :: t.calls[c] == Advance(s.calls[c], e))
  {
    PolledCalls(s, d);
    var calls := Polled(s, d).calls;
    assert c == d ==> calls[c] == Advance(s.calls[c], Finding(s, s.calls[d]));
  }

  lemma BeginsAddsCall(s: State, c: nat)
    ensures var t := AfterTerminate(s);
            && |t.calls| == |s.calls| + 1
            && (c < |s.calls| ==> t.calls[c] == s.calls[c])
            && (c == |s.calls| ==> t.calls[c] == REFUSED || exists e :: t.calls[c] == Advance(FRESH, e))
  {
    if s.alive {
      PolledCalls(Admitted(s), |s.calls|);
      var calls := AfterTerminate(s).calls;
      assert calls[|s.calls|] == Advance(FRESH, Finding(Admitted(s), FRESH));
    }
  }

  /** A sleeping call has slept once more than it was resumed. */
  predicate Paced(calls: seq<Call>, c: nat, resumed: nat) {
    && (c >= |calls| ==> resumed == 0)
    && (c < |calls| && !calls[c].done ==> calls[c].sleeps == resumed + 1)
    && resumed <= ALL_POLLS
  }

  lemma AdvanceKeepsPace(call: Call, e: bool, resumed: nat)
    requires CallOk(call) && !call.done && call.sleeps == resumed + 1
    ensures !Advance(call, e).done ==> Advance(call, e).sleeps == resumed + 2
    ensures resumed + 1 <= ALL_POLLS
  {
    AdvanceKeepsOk(call, e);
  }

  lemma {:induction false} SleepsCount(steps: seq<Step>, t: State, c: nat)
    requires Run(SPAWNED, steps, t)
    ensures Paced(t.calls, c, Resumptions(steps, c))
    decreases |steps|
  {
    if steps != [] {
      var m := RunInit(SPAWNED, steps, t);
      var last := steps[|steps| - 1];
      SleepsCount(steps[..|steps| - 1], m, c);
      RunKeepsInv(SPAWNED, steps[..|steps| - 1], m);
      CallAfterStep(m, last, c);
      PaceAfter(m, last, t, c, Resumptions(steps[..|steps| - 1], c));
    }
  }

  lemma PaceAfter(m: State, last: Step, t: State, c: nat, resumed: nat)
    requires CallsOk(m) && Enabled(m, last) && Paced(m.calls, c, resumed)
    requires |t.calls| == |m.calls| + (if last.Begins? then 1 else 0)
    requires c < |m.calls| && last != Resumes(c) ==> t.calls[c] == m.calls[c]
    requires last == Resumes(c) ==> exists e :: t.calls[c] == Advance(m.calls[c], e)
    requires last.Begins? && c == |m.calls| ==>
               t.calls[c] == REFUSED || exists e :: t.calls[c] == Advance(FRESH, e)
    ensures Paced(t.calls, c, resumed + if last == Resumes(c) then 1 else 0)
  {
    if last == Resumes(c) {
      var e :| t.calls[c] == Advance(m.calls[c], e);
      AdvanceKeepsPace(m.calls[c], e, resumed);
    }
  }

  /** Each call is resumed at most 110 times, after 0.1 s each, and has returned by the last of
      them, however many run in parallel: 11 s of sleeping, within what stop.sh allows. */
  lemma CallsEnd(steps: seq<Step>, t: State, c: nat)
    requires Run(SPAWNED, steps, t) && c < |t.calls|
    ensures Resumptions(steps, c) <= ALL_POLLS < STOP_SCRIPT_POLLS
    ensures Resumptions(steps, c) == ALL_POLLS ==> t.calls[c].done
  {
    SleepsCount(steps, t, c);
    RunKeepsInv(SPAWNED, steps, t);
  }

  /** A session that is alive but terminating is still being worked on, and every call that has
      returned left it dead. */
  lemma TerminatingIsAttended(steps: seq<Step>, t: State)
    requires Run(SPAWNED, steps, t)
    ensures t.alive && t.terminating ==> exists c :: 0 <= c < |t.calls| && !t.calls[c].done
    ensures (exists c :: 0 <= c < |t.calls| && t.calls[c].done) ==> !t.alive
  {
    RunKeepsInv(SPAWNED, steps, t);
    if t.alive && t.terminating {
      assert !t.calls[0].done;
    }
  }

  // ---- What each segment does ------------------------------------------------------------------------

  /** SIGHUP at once, SIGTERM when 2 s have passed and SIGKILL after 10 s, each only if no look has
      found the session ended by then; and whoever was refused has sent nothing. */
  lemma SignalsOnTime(steps: seq<Step>, t: State, c: nat)
    requires Run(SPAWNED, steps, t) && c < |t.calls| && t.calls[c] != REFUSED
    ensures var call := t.calls[c];
            var looked := if call.done then call.sleeps + 1 else call.sleeps;
            call.sent == if looked <= 20 then [Hangup]
                         else if looked <= 100 then [Hangup, Terminate]
                         else [Hangup, Terminate, Kill]
    ensures !t.calls[c].done ==> 1 <= t.calls[c].sleeps <= 110
  {
    RunKeepsInv(SPAWNED, steps, t);
    assert CallOk(t.calls[c]);
    assert ESCALATION[..1] == [Hangup] && ESCALATION[..2] == [Hangup, Terminate];
    assert ESCALATION[..3] == [Hangup, Terminate, Kill];
  }

  /** The session is over: nothing is registered, the fd closed. */
  predicate IsOver(t: State) {
    !t.alive && !t.fdOpen && !t.reader && !t.paused && !t.writer
  }

  /** The calls of terminate apart, nothing has changed. */
  predicate SameSession(s: State, t: State) {
    t == s.(calls := t.calls)
  }

  /** Of the fields that no segment below is about. */
  predicate SameFlags(s: State, t: State) {
    t.terminating == s.terminating && t.exit == s.exit && t.notified == s.notified
  }

  /** A call on a dead session does nothing. One on a living session marks it and says so, unless
      another has; it sends SIGHUP, and sleeps if the child still runs: else it reaps it and is done. */
  lemma TerminateDecides(steps: seq<Step>, s: State)
    requires Run(SPAWNED, steps, s)
    ensures var t := Next(s, Begins);
            if !s.alive then SameSession(s, t) && t.calls == s.calls + [Call(0, 0, [], 0, true)]
            else
              && t.terminating && t.exit == s.exit && t.notified == s.notified + (if s.terminating then 0 else 1)
              && t.calls == s.calls + [Call(0, if s.child.Running? then 1 else 0, [Hangup],
                                            if s.child.Running? then 1 else 0, !s.child.Running?)]
              && if s.child.Running? then
                   t == s.(terminating := true, notified := t.notified, calls := t.calls)
                 else t.child.Reaped? && IsOver(t)
  {
    RunKeepsInv(SPAWNED, steps, s);
    if s.alive {
      var calls := s.calls + [FRESH];
      assert forall call :: calls[|s.calls| := call] == s.calls + [call];
      PolledCalls(Admitted(s), |s.calls|);
    }
  }

  /** A call that has slept looks again. If the session is over, it returns; if the child has died,
      it reaps it and ends the session; if not, it sleeps on - but after 110 sleeps it ends the
      session with the child as it is. It never touches another call. */
  lemma ResumeDecides(steps: seq<Step>, s: State, c: nat)
    requires Run(SPAWNED, steps, s) && Enabled(s, Resumes(c))
    ensures var t := Next(s, Resumes(c));
            && |t.calls| == |s.calls| && (forall d :: 0 <= d < |s.calls| && d != c ==> t.calls[d] == s.calls[d])
            && SameFlags(s, t)
            && t.calls[c].done == (!s.alive || !s.child.Running? || s.calls[c].sleeps == 110)
            && t.calls[c].sleeps == s.calls[c].sleeps + (if t.calls[c].done then 0 else 1)
            && if !s.alive || !t.calls[c].done then SameSession(s, t)
               else IsOver(t) && t.child == if s.child.Zombie? && s.calls[c].sleeps < 110 then Reaped else s.child
  {
    RunKeepsInv(SPAWNED, steps, s);
    assert CallOk(s.calls[c]);
    PolledCalls(s, c);
    ResumeEffect(s, c);
  }

  lemma ResumeEffect(s: State, c: nat)
    requires c < |s.calls| && !s.calls[c].done && CallOk(s.calls[c]) && FdOk(s) && (s.alive ==> !s.child.Reaped?)
    ensures var t := Polled(s, c);
            && SameFlags(s, t)
            && (Looks(s.calls[c]) <==> s.calls[c].sleeps < 110)
            && if !s.alive || (Looks(s.calls[c]) && s.child.Running?) then SameSession(s, t)
               else IsOver(t) && t.child == if s.child.Zombie? && Looks(s.calls[c]) then Reaped else s.child
  {
    AdvanceKeepsOk(s.calls[c], false);
  }

  /** EOF takes the callback off and has the exit handled, once. */
  lemma EofDecides(s: State)
    requires Enabled(s, SeesEof)
    ensures var t := Next(s, SeesEof);
            && t == s.(reader := false, exit := t.exit)
            && t.exit == if s.exit.NoExit? then Scheduled else s.exit
  {
  }

  /** The natural exit ends and reaps a session that is still alive, at once; whoever looked at
      the sessions is told unless a terminate has told already, but only after the socket, if one
      is attached, has been seen off. On a session that is dead it does nothing. */
  lemma ExitDecides(steps: seq<Step>, s: State, attached: bool)
    requires Run(SPAWNED, steps, s) && Enabled(s, ExitBegins(attached))
    ensures var t := Next(s, ExitBegins(attached));
            && t.calls == s.calls && t.terminating == s.terminating
            && if !s.alive then t == s.(exit := Finished)
               else
                 && IsOver(t) && t.child.Reaped?
                 && t.exit == (if attached then Closing(!s.terminating) else Finished)
                 && t.notified == s.notified + (if attached || s.terminating then 0 else 1)
    ensures attached && s.alive ==>
              var t := Next(s, ExitBegins(attached));
              var u := Next(t, ExitEnds);
              && u.exit.Finished? && u.notified == s.notified + (if s.terminating then 0 else 1)
              && u == t.(exit := u.exit, notified := u.notified)
  {
    RunKeepsInv(SPAWNED, steps, s);
  }

  /** Backpressure takes the read callback off a session with an fd, and puts it back on one that
      is live; neither affects anything else. */
  lemma PauseDecides(steps: seq<Step>, s: State)
    requires Run(SPAWNED, steps, s)
    ensures var t := Next(s, Pauses);
            t == s.(reader := t.reader, paused := t.paused) && !t.reader == (s.paused || s.fdOpen || !s.reader) &&
            t.paused == (s.paused || s.fdOpen)
    ensures var t := Next(s, Unpauses);
            t == s.(reader := t.reader, paused := false) && t.reader == (s.reader || (s.paused && Live(s)))
  {
    RunKeepsInv(SPAWNED, steps, s);
  }

  // ---- The loops -----------------------------------------------------------------------------

  /** A call that never sees the session end has given up after its last poll. */
  lemma {:induction false} LooksSuffice(call: Call, looks: seq<bool>)
    requires CallOk(call) && call.sleeps + |looks| > ALL_POLLS
    ensures Played(call, looks).done
    ensures true !in looks && !call.done ==> GaveUp(Played(call, looks))
    decreases |looks|
  {
    if !call.done {
      AdvanceKeepsOk(call, looks[0]);
      if !Advance(call, looks[0]).done {
        LooksSuffice(Advance(call, looks[0]), looks[1..]);
      } else {
        assert Played(Advance(call, looks[0]), looks[1..]) == Advance(call, looks[0]);
      }
    }
  }

  /** In every run each call's record is the loops below played on what that call found, as many
      findings as it had segments. */
  lemma {:induction false} CallsPlayTheLoops(steps: seq<Step>, t: State, c: nat) returns (looks: seq<bool>)
    requires Run(SPAWNED, steps, t) && c < |t.calls| && t.calls[c] != REFUSED
    ensures t.calls[c] == Played(FRESH, looks) && |looks| == Resumptions(steps, c) + 1
    decreases |steps|
  {
    var m := RunInit(SPAWNED, steps, t);
    var last := steps[|steps| - 1];
    CallAfterStep(m, last, c);
    SleepsCount(steps[..|steps| - 1], m, c);
    if c == |m.calls| {
      var e :| t.calls[c] == Advance(FRESH, e);
      looks := [e];
      assert [e][1..] == [];
    } else {
      looks := CallsPlayTheLoops(steps[..|steps| - 1], m, c);
      if last == Resumes(c) {
        var e :| t.calls[c] == Advance(m.calls[c], e);
        PlayedSnoc(FRESH, looks, e);
        looks := looks + [e];
      }
    }
  }

  /** `_wait_reaped`: `looks` is what the polls find from here on. */
  method WaitReaped(stage: nat, looks: seq<bool>, ghost call: Call)
    returns (ended: bool, sleeps: nat, ghost after: Call)
    requires stage <= 2 && call == Call(stage, 0, call.sent, call.sleeps, false) && |looks| > Limit(stage)
    ensures ended ==> sleeps < Limit(stage) && looks[sleeps] && true !in looks[..sleeps]
    ensures !ended ==> sleeps == Limit(stage) && true !in looks[..sleeps]
    ensures after == call.(polls := sleeps, sleeps := call.sleeps + sleeps, done := ended)
    ensures Played(call, looks) == Played(after, looks[sleeps..])
  {
    sleeps, ended, after := 0, false, call;
    while sleeps < Limit(stage)
      invariant sleeps <= Limit(stage)
      invariant after == call.(polls := sleeps, sleeps := call.sleeps + sleeps)
      invariant true !in looks[..sleeps]
      invariant Played(call, looks) == Played(after, looks[sleeps..])
    {
      assert looks[sleeps..][1..] == looks[sleeps + 1..];
      if looks[sleeps] {
        after := after.(done := true);
        return true, sleeps, after;
      }
      after := Slept(after);
      sleeps := sleeps + 1;
    }
  }

  /** Moving on to the next stage costs no look. */
  lemma EscalationIsFree(call: Call, looks: seq<bool>)
    requires !call.done && call.stage < 2 && call.polls == Limit(call.stage) && looks != []
    ensures Played(call, looks) == Played(Escalated(call), looks)
  {
  }

  /** `terminate` from its first signal on, as one straight piece of code: it sends and sleeps
      exactly as the step machine's call does for the same findings. */
  method TerminateLoop(looks: seq<bool>) returns (sent: seq<Signal>, sleeps: nat)
    requires |looks| > ALL_POLLS
    ensures Played(FRESH, looks).done
    ensures sent == Played(FRESH, looks).sent && sleeps == Played(FRESH, looks).sleeps
  {
    LooksSuffice(FRESH, looks) by { assert ESCALATION[..1] == [Hangup]; }
    sent := [Hangup];
    var ended, first; ghost var call;
    ended, first, call := WaitReaped(0, looks, FRESH);
    sleeps := first;
    if !ended {
      EscalationIsFree(call, looks[sleeps..]);
      sent := sent + [Terminate];
      var second;
      ended, second, call := WaitReaped(1, looks[sleeps..], Escalated(call));
      assert looks[first..][second..] == looks[first + second..];
      sleeps := sleeps + second;
      if !ended {
        EscalationIsFree(call, looks[sleeps..]);
        sent := sent + [Kill];
        var third;
        ghost var before := sleeps;
        ended, third, call := WaitReaped(2, looks[sleeps..], Escalated(call));
        assert looks[before..][third..] == looks[before + third..];
        sleeps := sleeps + third;
      }
    }
  }

  // ---- The object ------------------------------------------------------------------------------

  class Session {
    var alive: bool
    var terminating: bool
    var fdOpen: bool
    var reader: bool
    var paused: bool
    var writer: bool
    var child: Child
    var exit: Exit
    var calls: seq<Call>
    ghost var notified: nat
    ghost var reaps: nat
    ghost var strayWaits: nat
    ghost var closes: nat

    ghost function Snapshot(): State
      reads this
    {
      State(alive, terminating, fdOpen, reader, paused, writer, child, exit, calls,
            notified, reaps, strayWaits, closes)
    }

    ghost predicate Valid()
      reads this
    {
      Inv(Snapshot())
    }

    constructor ()
      ensures Snapshot() == SPAWNED && Valid()
    {
      alive, terminating, fdOpen, reader, paused, writer := true, false, true, true, false, false;
      child, exit, calls := Running, NoExit, [];
      notified, reaps, strayWaits, closes := 0, 0, 0, 0;
    }

    method CleanupFd()
      modifies `fdOpen, `reader, `paused, `writer, `closes
      ensures Snapshot() == Cleaned(old(Snapshot()))
    {
      if fdOpen {
        if reader {
          reader := false;
        }
        paused := false;
        if writer {
          writer := false;
        }
        fdOpen := false;
        closes := closes + 1;
      }
    }

    /** waitpid with WNOHANG; true when there is nothing left to wait for. */
    method WaitNoHang() returns (gone: bool)
      modifies `child, `reaps, `strayWaits
      ensures Snapshot() == Waited(old(Snapshot()))
      ensures gone <==> !old(child).Running?
    {
      match child {
        case Running =>
          gone := false;
        case Zombie =>
          child, reaps, gone := Reaped, reaps + 1, true;
        case Reaped =>
          strayWaits, gone := strayWaits + 1, true;
      }
    }

    method Reap()
      modifies `child, `reaps, `strayWaits
      ensures Snapshot() == WaitedLong(old(Snapshot()))
    {
      if child.Reaped? {
        strayWaits := strayWaits + 1;
      } else {
        child, reaps := Reaped, reaps + 1;
      }
    }

    /** One segment of a call, from a wake-up (or its start) to its next sleep or its end. */
    method Poll(c: nat)
      requires c < |calls|
      modifies `alive, `fdOpen, `reader, `paused, `writer, `child, `calls, `reaps, `strayWaits, `closes
      ensures Snapshot() == Polled(old(Snapshot()), c)
    {
      var call := calls[c];
      if Looks(call) && alive {
        var gone := WaitNoHang();
        calls := calls[c := Advance(call, gone)];
        if !gone {
          return;
        }
      } else {
        calls := calls[c := Advance(call, Looks(call))];
      }
      alive := false;
      CleanupFd();
    }

    method TerminateBegins()
      requires Valid()
      modifies this
      ensures Snapshot() == Next(old(Snapshot()), Begins) && Valid()
    {
      StepKeepsInv(Snapshot(), Begins);
      if !alive {
        calls := calls + [REFUSED];
        return;
      }
      var firstTerminator := !terminating;
      terminating := true;
      if firstTerminator {
        notified := notified + 1;
      }
      calls := calls + [FRESH];
      Poll(|calls| - 1);
    }

    method TerminateResumes(c: nat)
      requires Valid() && c < |calls| && !calls[c].done
      modifies this
      ensures Snapshot() == Next(old(Snapshot()), Resumes(c)) && Valid()
    {
      StepKeepsInv(Snapshot(), Resumes(c));
      Poll(c);
    }

    method HandleExit(attached: bool)
      requires Valid() && exit.Scheduled?
      modifies this
      ensures Snapshot() == Next(old(Snapshot()), ExitBegins(attached)) && Valid()
    {
      StepKeepsInv(Snapshot(), ExitBegins(attached));
      if !alive {
        exit := Finished;
        return;
      }
      var wasLive := !terminating;
      alive, exit := false, Closing(wasLive);
      CleanupFd();
      Reap();
      if !attached {
        FinishExit(wasLive);
      }
    }

    method FinishExit(wasLive: bool)
      requires exit == Closing(wasLive)
      modifies `exit, `notified
      ensures Snapshot() == AfterExitEnds(old(Snapshot()))
    {
      exit := Finished;
      if wasLive {
        notified := notified + 1;
      }
    }

    method ExitResumes()
      requires Valid() && exit.Closing?
      modifies this
      ensures Snapshot() == Next(old(Snapshot()), ExitEnds) && Valid()
    {
      StepKeepsInv(Snapshot(), ExitEnds);
      FinishExit(exit.wasLive);
    }
  }
}
