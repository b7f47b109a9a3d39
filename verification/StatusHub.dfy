/** The project status broadcaster: one loop that waits for a dirty flag or a timeout, computes a
    snapshot over several awaits and sends it to all subscribers, while sessions change and
    subscribers come and go. A step is what runs between two awaits. */
module StatusHub {
  import opened Common

  type Sock = nat

  /** Whether a project's claude, codex and shell sessions are live. */
  datatype Flags = Flags(claude: bool, codex: bool, shell: bool)

  /** One project in a payload; `rest` stands for its name, path and history fields. */
  datatype Row = Row(live: Flags, rest: nat)

  type Payload = seq<Row>

  datatype Pc =
    | Waiting(idle: bool)                               // without a timeout when idle
    | Reading(triggered: bool, seen: nat, got: Payload) // inside snapshot
    | Sending(payload: Payload, seen: nat, todo: set<Sock>, failed: set<Sock>)

  datatype State = State(
    live: seq<Flags>,                        // what get_live would answer, per project
    owed: nat,                               // changes of it not notified yet
    dirty: bool,
    sockets: map<Sock, Option<Payload>>,     // subscribers, with what each received last (trace)
    last: Option<Payload>,
    pc: Pc,
    noticed: nat,          // trace: calls of changed and add so far
    known: nat,            // trace: how many of them preceded all reads of `last`
    blind: bool,           // trace: since then a triggered snapshot with newer notices has raised
    joining: set<Sock>,    // trace: joined, and the loop has not woken since
    awaiting: set<Sock>,   // trace: the snapshot their joining triggered is being computed
    forsaken: set<Sock>)   // trace: it raised, and no broadcast has begun since

  function Start(live: seq<Flags>): State {
    State(live, 0, false, map[], None, Waiting(true), 0, 0, false, {}, {}, {})
  }

  // ---- Operations ------------------------------------------------------------------------------

  function Notice(s: State): State {
    s.(dirty := true, noticed := s.noticed + 1)
  }

  /** The top of the loop up to its wait. */
  function Top(s: State): State {
    s.(pc := Waiting(s.sockets == map[]))
  }

  function BeginSnapshot(s: State, triggered: bool): State {
    if s.sockets == map[] then Top(s) else s.(pc := Reading(triggered, s.noticed, []))
  }

  function AfterWake(s: State): State {
    BeginSnapshot(s.(dirty := false, awaiting := if s.sockets == map[] then {} else s.joining, joining := {}), true)
  }

  function AfterRead(s: State, rest: nat): State
    requires s.pc.Reading? && |s.pc.got| < |s.live|
  {
    s.(pc := s.pc.(got := s.pc.got + [Row(s.live[|s.pc.got|], rest)]))
  }

  /** A new last payload. */
  function Remember(s: State, payload: Payload, seen: nat): State {
    s.(last := Some(payload), known := seen, blind := false)
  }

  /** Nobody is left unserved: every subscriber is about to be sent a payload. */
  function Served(s: State): State {
    s.(joining := {}, awaiting := {}, forsaken := {})
  }

  /** The payload is complete: it is broadcast, unless nobody asked and it is the same again. */
  function AfterSnapshot(s: State): State
    requires s.pc.Reading?
  {
    var payload, seen := s.pc.got, s.pc.seen;
    if (s.pc.triggered || s.last != Some(payload)) && s.sockets != map[] then
      Served(s).(pc := Sending(payload, seen, s.sockets.Keys, {}))
    else
      Top(Remember(s.(awaiting := {}), payload, seen))
  }

  function AfterRaise(s: State): State
    requires s.pc.Reading?
  {
    Top(s.(blind := s.blind || (s.pc.triggered && s.pc.seen > s.known),
           forsaken := s.forsaken + s.awaiting, awaiting := {}))
  }

  function AfterSend(s: State, w: Sock, ok: bool): State
    requires s.pc.Sending? && w in s.pc.todo
  {
    var pc := s.pc.(todo := s.pc.todo - {w}, failed := if ok then s.pc.failed else s.pc.failed + {w});
    if ok && w in s.sockets
    then s.(pc := pc, sockets := s.sockets[w := Some(s.pc.payload)], joining := s.joining - {w})
    else s.(pc := pc)
  }

  /** Every send has ended: sockets that failed are dropped. */
  function AfterBroadcast(s: State): State
    requires s.pc.Sending?
  {
    Top(Remember(s.(sockets := s.sockets - s.pc.failed), s.pc.payload, s.pc.seen))
  }

  function AfterAdd(s: State, w: Sock): State {
    Notice(s.(sockets := s.sockets[w := None], joining := s.joining + {w}))
  }

  function AfterDiscard(s: State, w: Sock): State {
    s.(sockets := s.sockets - {w}, joining := s.joining - {w}, awaiting := s.awaiting - {w},
       forsaken := s.forsaken - {w})
  }

  datatype Step =
    | LiveChanges(p: nat, flags: Flags)
    | Changed(due: bool)             // changed(); `due` when it reports a change
    | Adds(w: Sock)
    | Discards(w: Sock)
    | Wakes
    | TimesOut
    | Reads(rest: nat)
    | Raises
    | Completes
    | Sends(w: Sock, ok: bool)
    | Settles

  predicate Enabled(s: State, step: Step) {
    match step
    case LiveChanges(p, _) => p < |s.live|
    case Changed(due) => due ==> s.owed > 0
    case Adds(w) => w !in s.sockets
    case Discards(_) => true
    case Wakes => s.pc.Waiting? && s.dirty
    case TimesOut => s.pc == Waiting(false)
    case Reads(_) => s.pc.Reading? && |s.pc.got| < |s.live|
    case Raises => s.pc.Reading?
    case Completes => s.pc.Reading? && |s.pc.got| == |s.live|
    case Sends(w, _) => s.pc.Sending? && w in s.pc.todo
    case Settles => s.pc.Sending? && s.pc.todo == {}
  }

  function Next(s: State, step: Step): State
    requires Enabled(s, step)
  {
    match step
    case LiveChanges(p, flags) => s.(live := s.live[p := flags], owed := s.owed + 1)
    case Changed(due) => Notice(if due then s.(owed := s.owed - 1) else s)
    case Adds(w) => AfterAdd(s, w)
    case Discards(w) => AfterDiscard(s, w)
    case Wakes => AfterWake(s)
    case TimesOut => BeginSnapshot(s, false)
    case Reads(rest) => AfterRead(s, rest)
    case Raises => AfterRaise(s)
    case Completes => AfterSnapshot(s)
    case Sends(w, ok) => AfterSend(s, w, ok)
    case Settles => AfterBroadcast(s)
  }

  ghost predicate Run(s: State, steps: seq<Step>, t: State)
    decreases |steps|
  {
    if steps == [] then s == t
    else Enabled(s, steps[0]) && Run(Next(s, steps[0]), steps[1..], t)
  }

  // ---- Invariant -------------------------------------------------------------------------------

  /** The payload's rows, as far as they go, show the sessions as they are now. */
  predicate Current(payload: Payload, live: seq<Flags>) {
    |payload| <= |live| && forall p :: 0 <= p < |payload| ==> payload[p].live == live[p]
  }

  predicate AllCurrent(last: Option<Payload>, live: seq<Flags>) {
    last.Some? && |last.value| == |live| && Current(last.value, live)
  }

  ghost predicate AllHave(sockets: map<Sock, Option<Payload>>, payload: Option<Payload>) {
    forall w :: w in sockets ==> sockets[w] == payload
  }

  /** Whoever has not been sent the last payload has been sent none, and is accounted for. */
  ghost predicate Received(s: State) {
    && (s.joining != {} ==> s.dirty)
    && (s.awaiting != {} ==> s.pc.Reading? && s.pc.triggered)
    && (forall w :: w in s.sockets && (w in s.joining || w in s.awaiting || w in s.forsaken) ==> s.sockets[w].None?)
    && match s.pc
       case Sending(payload, _, todo, failed) =>
         && s.forsaken == {}
         && forall w :: w in s.sockets && w !in todo && w !in failed ==>
              s.sockets[w] == Some(payload) || (s.sockets[w].None? && w in s.joining)
       case _ =>
         forall w :: w in s.sockets ==>
           if s.sockets[w].None? then w in s.joining || w in s.awaiting || w in s.forsaken
           else s.sockets[w] == s.last
  }

  /** How far the last payload, or the one in the making, is behind the notices. */
  ghost predicate Informed(s: State) {
    && s.known <= s.noticed
    && (s.blind ==> s.known < s.noticed)
    && (s.known > 0 ==> s.last.Some?)
    && (s.sockets != map[] ==> s.noticed > 0)
    && (!s.pc.Waiting? ==> s.pc.seen <= s.noticed)
    && (!s.dirty && s.sockets != map[] ==>
          match s.pc
          case Waiting(_) => s.known < s.noticed ==> s.blind
          case Reading(triggered, seen, _) => seen == s.noticed && (!triggered && s.known < s.noticed ==> s.blind)
          case Sending(_, seen, _, _) => seen == s.noticed)
  }

  /** Rows read after the last notice are current unless a change is still to be notified. */
  ghost predicate UpToDate(s: State) {
    && (s.last.Some? ==> |s.last.value| == |s.live|)
    && (s.owed == 0 && s.known == s.noticed && s.last.Some? ==> AllCurrent(s.last, s.live))
    && match s.pc
       case Waiting(_) => true
       case Reading(_, seen, got) => |got| <= |s.live| && (s.owed == 0 && seen == s.noticed ==> Current(got, s.live))
       case Sending(payload, seen, _, _) =>
         |payload| == |s.live| && (s.owed == 0 && seen == s.noticed ==> Current(payload, s.live))
  }

  ghost predicate Inv(s: State) {
    Received(s) && Informed(s) && UpToDate(s)
  }

  lemma StepKeepsReceived(s: State, step: Step)
    requires Received(s) && Enabled(s, step)
    ensures Received(Next(s, step))
  {
  }

  lemma StepKeepsInformed(s: State, step: Step)
    requires Informed(s) && Enabled(s, step)
    ensures Informed(Next(s, step))
  {
  }

  /** What the payload in the making, or the last one, shows after steps of the loop itself. */
  lemma LoopStepKeepsUpToDate(s: State, step: Step)
    requires UpToDate(s) && Informed(s) && Enabled(s, step) && !s.pc.Waiting?
    requires step.Reads? || step.Raises? || step.Completes? || step.Sends? || step.Settles?
    ensures UpToDate(Next(s, step))
  {
  }

  lemma StepKeepsUpToDate(s: State, step: Step)
    requires UpToDate(s) && Informed(s) && Enabled(s, step)
    ensures UpToDate(Next(s, step))
  {
    if step.Reads? || step.Raises? || step.Completes? || step.Sends? || step.Settles? {
      LoopStepKeepsUpToDate(s, step);
    }
  }

  lemma StepKeepsInv(s: State, step: Step)
    requires Inv(s) && Enabled(s, step)
    ensures Inv(Next(s, step))
  {
    StepKeepsReceived(s, step);
    StepKeepsInformed(s, step);
    StepKeepsUpToDate(s, step);
  }

  lemma StepLosesByRaising(s: State, step: Step)
    requires Enabled(s, step) && step != Raises
    ensures Next(s, step).blind ==> s.blind
    ensures Next(s, step).forsaken <= s.forsaken
  {
  }

  lemma {:induction false} RunKeepsInv(s: State, steps: seq<Step>, t: State)
    requires Inv(s) && Run(s, steps, t)
    ensures Inv(t)
    ensures Raises !in steps ==> (t.blind ==> s.blind) && t.forsaken <= s.forsaken
    decreases |steps|
  {
    if steps != [] {
      StepKeepsInv(s, steps[0]);
      if steps[0] != Raises {
        StepLosesByRaising(s, steps[0]);
      }
      RunKeepsInv(Next(s, steps[0]), steps[1..], t);
    }
  }

  // ---- Theorems ----------------------------------------------------------------------------------

  /** Whenever the loop waits, subscribers disagree with the last payload only by having received
      none at all; and when the flag is clear as well, they agree exactly if no subscriber is
      forsaken: joined since the last broadcast began, by a trigger whose snapshot raised. */
  lemma AgreementExactly(live: seq<Flags>, steps: seq<Step>, t: State)
    requires Run(Start(live), steps, t) && t.pc.Waiting?
    ensures AllHave(t.sockets, t.last) <==> t.last.None? || forall w :: w in t.sockets ==> t.sockets[w].Some?
    ensures !t.dirty ==> (AllHave(t.sockets, t.last) <==> t.last.None? || t.forsaken !! t.sockets.Keys)
  {
    RunKeepsInv(Start(live), steps, t);
    if t.last.Some? && !(t.forsaken !! t.sockets.Keys) {
      var w :| w in t.forsaken && w in t.sockets.Keys;
      assert t.sockets[w].None?;
    }
  }

  /** Then, with subscribers, the last payload was read after every notice exactly if no triggered
      snapshot with newer notices has raised since it was read; and if so it shows the sessions as
      they are, unless a change has not been notified yet. So a stale payload means such a loss. */
  lemma FreshnessExactly(live: seq<Flags>, steps: seq<Step>, t: State)
    requires Run(Start(live), steps, t) && t.pc.Waiting? && !t.dirty && t.sockets != map[]
    ensures t.known == t.noticed <==> !t.blind
    ensures t.owed == 0 && !t.blind ==> AllCurrent(t.last, t.live)
  {
    RunKeepsInv(Start(live), steps, t);
  }

  /** Nothing is lost in a run in which `snapshot` does not raise. */
  lemma NothingLostWithoutRaise(live: seq<Flags>, steps: seq<Step>, t: State)
    requires Run(Start(live), steps, t) && Raises !in steps
    ensures t.forsaken == {} && !t.blind
  {
    RunKeepsInv(Start(live), steps, t);
  }

  /** In runs in which `snapshot` does not raise: agreement and freshness outright. */
  lemma HubAgreement(live: seq<Flags>, steps: seq<Step>, t: State)
    requires Run(Start(live), steps, t) && Raises !in steps && t.pc.Waiting? && !t.dirty
    ensures AllHave(t.sockets, t.last)
    ensures t.sockets != map[] ==> t.known == t.noticed
    ensures t.sockets != map[] && t.owed == 0 ==> AllCurrent(t.last, t.live)
  {
    RunKeepsInv(Start(live), steps, t);
    AgreementExactly(live, steps, t);
  }

  /** Every broadcast that begins goes to all subscribers of that moment, with rows all read since
      the last notice unless a newer one is pending. */
  lemma BroadcastsAreFresh(live: seq<Flags>, steps: seq<Step>, s: State)
    requires Run(Start(live), steps, s) && Enabled(s, Completes) && Next(s, Completes).pc.Sending?
    ensures Next(s, Completes).pc.todo == s.sockets.Keys
    ensures !s.dirty ==> Next(s, Completes).pc.seen == s.noticed
    ensures !s.dirty && s.owed == 0 ==> AllCurrent(Some(Next(s, Completes).pc.payload), s.live)
  {
    RunKeepsInv(Start(live), steps, s);
    StepKeepsInv(s, Completes);
  }

  /** The loop never sticks: unless it waits with the flag clear, a step of its own is enabled. */
  lemma NeverStuck(live: seq<Flags>, steps: seq<Step>, t: State) returns (step: Step)
    requires Run(Start(live), steps, t) && (t.pc.Waiting? ==> t.dirty)
    ensures Enabled(t, step)
    ensures step.Wakes? || step.Reads? || step.Completes? || step.Sends? || step.Settles?
  {
    RunKeepsInv(Start(live), steps, t);
    match t.pc {
      case Waiting(_) => step := Wakes;
      case Reading(_, _, got) => step := if |got| < |t.live| then Reads(0) else Completes;
      case Sending(_, _, todo, _) =>
        if w :| w in todo {
          step := Sends(w, true);
        } else {
          step := Settles;
        }
    }
  }

  lemma Cons(s: State, step: Step, rest: seq<Step>, t: State)
    requires Enabled(s, step) && Run(Next(s, step), rest, t)
    ensures Run(s, [step] + rest, t)
  {
    assert ([step] + rest)[1..] == rest;
  }

  // A first subscriber and its broadcast, with no project configured.

  const FIRST_SEND := Start([]).(sockets := map[1 := None], pc := Sending([], 1, {1}, {}), noticed := 1)
  const FIRST_SENT := Start([]).(sockets := map[1 := Some([])], pc := Waiting(false), noticed := 1, known := 1,
                                 last := Some([]))

  lemma BeginsFirst() returns (steps: seq<Step>)
    ensures Run(Start([]), steps, FIRST_SEND)
  {
    var a := Start([]);
    var b := Next(a, Adds(1));
    assert b.sockets == map[1 := None] && b.joining == {1};
    var c := Next(b, Wakes);
    var d := Next(c, Completes);
    assert d.pc.todo == {1};
    assert d == FIRST_SEND;
    assert Run(d, [], d);
    Cons(c, Completes, [], d);
    Cons(b, Wakes, [Completes] + [], d);
    Cons(a, Adds(1), [Wakes] + ([Completes] + []), d);
    steps := [Adds(1)] + ([Wakes] + ([Completes] + []));
  }

  lemma SendsFirst()
    ensures Run(FIRST_SEND, [Sends(1, true)] + ([Settles] + []), FIRST_SENT)
  {
    var e := Next(FIRST_SEND, Sends(1, true));
    assert e.pc.todo == {} && e.sockets == map[1 := Some([])] && e.joining == {};
    assert e.sockets - {} == e.sockets;
    assert Next(e, Settles) == FIRST_SENT;
    assert Run(FIRST_SENT, [], FIRST_SENT);
    Cons(e, Settles, [], FIRST_SENT);
    Cons(FIRST_SEND, Sends(1, true), [Settles] + [], FIRST_SENT);
  }

  lemma FirstBroadcast() returns (steps: seq<Step>)
    ensures Run(Start([]), steps, FIRST_SENT)
  {
    var first := BeginsFirst();
    SendsFirst();
    RunConcat(Start([]), first, FIRST_SEND, [Sends(1, true)] + ([Settles] + []), FIRST_SENT);
    steps := first + ([Sends(1, true)] + ([Settles] + []));
  }

  /** From any state in which the loop waits: a subscriber that joins just before a snapshot raises
      is forsaken, while the flag is clear again. */
  lemma RaiseLosesTrigger(s: State, w: Sock) returns (t: State)
    requires s.pc.Waiting? && w !in s.sockets
    ensures Run(s, [Adds(w)] + ([Wakes] + ([Raises] + [])), t)
    ensures t.pc == Waiting(false) && !t.dirty && w in t.forsaken && t.last == s.last
    ensures t.sockets == s.sockets[w := None]
  {
    var a := Next(s, Adds(w));
    assert w in a.sockets;
    var b := Next(a, Wakes);
    t := Next(b, Raises);
    assert Run(t, [], t);
    Cons(b, Raises, [], t);
    Cons(a, Wakes, [Raises] + [], t);
    Cons(s, Adds(w), [Wakes] + ([Raises] + []), t);
  }

  /** And from any state in which subscribers have a current payload: a change whose snapshot
      raises leaves it stale, although it was notified and the flag is clear again. */
  lemma RaiseLeavesStale(s: State, p: nat, flags: Flags) returns (t: State)
    requires s.pc.Waiting? && s.sockets != map[] && s.owed == 0 && s.known <= s.noticed
    requires AllCurrent(s.last, s.live) && p < |s.live| && flags != s.live[p]
    ensures Run(s, [LiveChanges(p, flags)] + ([Changed(true)] + ([Wakes] + ([Raises] + []))), t)
    ensures t.pc.Waiting? && !t.dirty && t.owed == 0 && t.blind && !AllCurrent(t.last, t.live)
  {
    var a := Next(s, LiveChanges(p, flags));
    var b := Next(a, Changed(true));
    var c := Next(b, Wakes);
    t := Next(c, Raises);
    assert t.last.value[p].live != t.live[p];
    assert Run(t, [], t);
    Cons(c, Raises, [], t);
    Cons(b, Wakes, [Raises] + [], t);
    Cons(a, Changed(true), [Wakes] + ([Raises] + []), t);
    Cons(s, LiveChanges(p, flags), [Changed(true)] + ([Wakes] + ([Raises] + [])), t);
  }

  /** So agreement fails in some run. */
  lemma DisagreementExists() returns (steps: seq<Step>, t: State)
    ensures Run(Start([]), steps, t) && t.pc.Waiting? && !t.dirty && !AllHave(t.sockets, t.last)
  {
    var first := FirstBroadcast();
    t := RaiseLosesTrigger(FIRST_SENT, 2);
    steps := first + ([Adds(2)] + ([Wakes] + ([Raises] + [])));
    RunConcat(Start([]), first, FIRST_SENT, [Adds(2)] + ([Wakes] + ([Raises] + [])), t);
    assert t.sockets[2] == None;
  }

  lemma {:induction false} RunConcat(s: State, first: seq<Step>, m: State, second: seq<Step>, t: State)
    requires Run(s, first, m) && Run(m, second, t)
    ensures Run(s, first + second, t)
    decreases |first|
  {
    if first == [] {
      assert first + second == second;
    } else {
      RunConcat(Next(s, first[0]), first[1..], m, second, t);
      assert (first + second)[1..] == first[1..] + second;
    }
  }

  // ---- Whole rounds --------------------------------------------------------------------------------

  /** What a snapshot over these flags would send. */
  function Rows(live: seq<Flags>, rests: seq<nat>): (r: Payload)
    requires |rests| <= |live|
    ensures |r| == |rests| && forall p :: 0 <= p < |r| ==> r[p].live == live[p] && r[p].rest == rests[p]
  {
    seq(|rests|, p requires 0 <= p < |rests| => Row(live[p], rests[p]))
  }

  function ReadSteps(rests: seq<nat>): seq<Step> {
    if rests == [] then [] else [Reads(rests[0])] + ReadSteps(rests[1..])
  }

  lemma {:induction false} ReadsAll(s: State, triggered: bool, seen: nat, before: seq<nat>, rests: seq<nat>, t: State)
    requires |before| + |rests| <= |s.live| && s.pc == Reading(triggered, seen, Rows(s.live, before))
    requires Run(s, ReadSteps(rests), t)
    ensures t == s.(pc := Reading(triggered, seen, Rows(s.live, before + rests)))
    decreases |rests|
  {
    if rests == [] {
      assert before + rests == before;
    } else {
      var n := Next(s, Reads(rests[0]));
      assert ReadSteps(rests)[1..] == ReadSteps(rests[1..]);
      assert Rows(s.live, before) + [Row(s.live[|before|], rests[0])] == Rows(s.live, before + [rests[0]]);
      ReadsAll(n, triggered, seen, before + [rests[0]], rests[1..], t);
      assert before + [rests[0]] + rests[1..] == before + rests;
    }
  }

  lemma {:induction false} RunSplits(s: State, first: seq<Step>, second: seq<Step>, t: State) returns (m: State)
    requires Run(s, first + second, t)
    ensures Run(s, first, m) && Run(m, second, t)
    decreases |first|
  {
    if first == [] {
      m := s;
      assert first + second == second;
    } else {
      assert (first + second)[1..] == first[1..] + second;
      m := RunSplits(Next(s, first[0]), first[1..], second, t);
    }
  }

  /** A round with subscribers that nothing disturbs: a payload that was asked for, or that differs
      from the last one, goes to all of them; the same payload again goes to nobody. Either way it
      has a row for every project, with its three live flags, and being woken clears the flag. */
  lemma RoundDecides(s: State, woken: bool, rests: seq<nat>, n: State)
    requires s.pc.Waiting? && (if woken then s.dirty else s.pc == Waiting(false)) && s.sockets != map[]
    requires |rests| == |s.live|
    requires Run(s, [if woken then Wakes else TimesOut] + ReadSteps(rests) + [Completes], n)
    ensures n.sockets == s.sockets && n.live == s.live && n.dirty == (s.dirty && !woken)
    ensures var payload := Rows(s.live, rests);
            if woken || s.last != Some(payload) then
              && n.pc.Sending? && n.pc.payload == payload && n.pc.todo == s.sockets.Keys && n.pc.failed == {}
              && n.last == s.last
            else n.pc == Waiting(false) && n.last == Some(payload)
  {
    var start := if woken then Wakes else TimesOut;
    assert [start] + ReadSteps(rests) + [Completes] == [start] + (ReadSteps(rests) + [Completes]);
    assert ([start] + (ReadSteps(rests) + [Completes]))[1..] == ReadSteps(rests) + [Completes];
    var m := RunSplits(Next(s, start), ReadSteps(rests), [Completes], n);
    assert Rows(s.live, []) == [];
    ReadsAll(Next(s, start), woken, s.noticed, [], rests, m);
    assert [] + rests == rests;
    assert Next(m, Completes) == n;
  }

  /** Woken without subscribers it goes back to wait until the flag is set, which it has cleared.
      Nothing was read or sent. So too if a snapshot raises, for the next timeout. */
  lemma NothingDecides(s: State)
    requires Enabled(s, Wakes) || Enabled(s, Raises)
    ensures s.pc.Waiting? && s.sockets == map[] ==> var n := Next(s, Wakes); n.pc == Waiting(true) && !n.dirty
    ensures s.pc.Waiting? ==> Next(s, Wakes).last == s.last && Next(s, Wakes).sockets == s.sockets
    ensures s.pc.Reading? ==>
              var n := Next(s, Raises);
              n.pc == Waiting(s.sockets == map[]) && n.last == s.last && n.sockets == s.sockets && n.dirty == s.dirty
  {
  }

  function SendSteps(order: seq<Sock>, lost: set<Sock>): seq<Step> {
    if order == [] then [] else [Sends(order[0], order[0] !in lost)] + SendSteps(order[1..], lost)
  }

  lemma {:induction false} SendsAll(s: State, order: seq<Sock>, lost: set<Sock>, t: State)
    requires s.pc.Sending? && Run(s, SendSteps(order, lost), t)
    ensures t.pc.Sending? && t.pc.payload == s.pc.payload && t.sockets.Keys == s.sockets.Keys && t.last == s.last
    ensures forall w :: w in t.pc.todo <==> w in s.pc.todo && w !in order
    ensures forall w :: w in t.pc.failed <==> w in s.pc.failed || (w in order && w in lost)
    ensures forall w :: w in s.sockets ==>
              t.sockets[w] == if w in order && w !in lost then Some(s.pc.payload) else s.sockets[w]
    decreases |order|
  {
    if order != [] {
      assert SendSteps(order, lost)[1..] == SendSteps(order[1..], lost);
      var n := Next(s, Sends(order[0], order[0] !in lost));
      SendsAll(n, order[1..], lost, t);
      assert forall w :: w in order <==> w == order[0] || w in order[1..];
    }
  }

  /** A broadcast that ends, whatever the order of its sends: exactly the subscribers it reached have
      the payload, exactly those it failed to reach are dropped, and others that have joined stay. */
  lemma BroadcastDecides(s: State, order: seq<Sock>, lost: set<Sock>, n: State)
    requires s.pc.Sending? && s.pc.failed == {} && Run(s, SendSteps(order, lost) + [Settles], n)
    ensures forall w :: w in n.sockets <==> w in s.sockets && !(w in s.pc.todo && w in lost)
    ensures forall w :: w in n.sockets ==> n.sockets[w] == if w in s.pc.todo then Some(s.pc.payload) else s.sockets[w]
    ensures n.last == Some(s.pc.payload) && n.pc == Waiting(n.sockets == map[])
  {
    var m := RunSplits(s, SendSteps(order, lost), [Settles], n);
    SendsAll(s, order, lost, m);
    assert n == Next(m, Settles);
    SentWereToDo(s, order, lost, m);
  }

  lemma {:induction false} SentWereToDo(s: State, order: seq<Sock>, lost: set<Sock>, m: State)
    requires s.pc.Sending? && Run(s, SendSteps(order, lost), m)
    ensures forall w :: w in order ==> w in s.pc.todo
    decreases |order|
  {
    if order != [] {
      assert SendSteps(order, lost)[1..] == SendSteps(order[1..], lost);
      SentWereToDo(Next(s, Sends(order[0], order[0] !in lost)), order[1..], lost, m);
      assert forall w :: w in order ==> w == order[0] || w in order[1..];
    }
  }

  /** Subscribers come and go, and nothing else: a new one has received nothing and sets the flag. */
  lemma SubscribersDecide(s: State, w: Sock)
    requires Enabled(s, Adds(w))
    ensures var n := Next(s, Adds(w));
            n.sockets == s.sockets[w := None] && n.dirty && n.pc == s.pc && n.last == s.last
    ensures forall v :: var n := Next(s, Discards(v));
            n.sockets == s.sockets - {v} && n.dirty == s.dirty && n.pc == s.pc && n.last == s.last
    ensures forall due :: Enabled(s, Changed(due)) ==> var n := Next(s, Changed(due));
            n.sockets == s.sockets && n.dirty && n.pc == s.pc && n.last == s.last
  {
  }

  // ---- The object --------------------------------------------------------------------------------

  class ProjectStatusHub {
    var live: seq<Flags>
    var dirty: bool
    var sockets: map<Sock, Option<Payload>>
    var lastPayload: Option<Payload>
    var pc: Pc
    ghost var owed: nat
    var noticed: nat        // only a trace
    ghost var known: nat
    ghost var blind: bool
    ghost var joining: set<Sock>
    ghost var awaiting: set<Sock>
    ghost var forsaken: set<Sock>

    ghost function Snapshot(): State
      reads this
    {
      State(live, owed, dirty, sockets, lastPayload, pc, noticed, known, blind,
            joining, awaiting, forsaken)
    }

    ghost predicate Valid()
      reads this
    {
      Inv(Snapshot())
    }

    constructor (flags: seq<Flags>)
      ensures Snapshot() == Start(flags) && Valid()
    {
      live, dirty, sockets, lastPayload, pc := flags, false, map[], None, Waiting(true);
      owed, noticed, known, blind := 0, 0, 0, false;
      joining, awaiting, forsaken := {}, {}, {};
    }

    method Changed(ghost due: bool)
      requires Valid() && (due ==> owed > 0)
      modifies `dirty, `noticed, `owed
      ensures Snapshot() == Next(old(Snapshot()), Step.Changed(due)) && Valid()
    {
      StepKeepsInv(Snapshot(), Step.Changed(due));
      dirty := true;
      noticed := noticed + 1;
      owed := if due then owed - 1 else owed;
    }

    method Add(w: Sock)
      requires Valid() && w !in sockets
      modifies `dirty, `noticed, `sockets, `joining
      ensures Snapshot() == Next(old(Snapshot()), Adds(w)) && Valid()
    {
      StepKeepsInv(Snapshot(), Adds(w));
      sockets := sockets[w := None];
      joining := joining + {w};
      dirty := true;
      noticed := noticed + 1;
    }

    method Discard(w: Sock)
      requires Valid()
      modifies `sockets, `joining, `awaiting, `forsaken
      ensures Snapshot() == Next(old(Snapshot()), Discards(w)) && Valid()
    {
      StepKeepsInv(Snapshot(), Discards(w));
      sockets := sockets - {w};
      joining, awaiting, forsaken := joining - {w}, awaiting - {w}, forsaken - {w};
    }

    /** The loop after its wait: because the flag was set, or because time was up. */
    method WaitIsOver(bySet: bool)
      requires Valid() && (if bySet then pc.Waiting? && dirty else pc == Waiting(false))
      modifies `dirty, `pc, `joining, `awaiting
      ensures Snapshot() == Next(old(Snapshot()), if bySet then Wakes else TimesOut) && Valid()
    {
      StepKeepsInv(Snapshot(), if bySet then Wakes else TimesOut);
      if bySet {
        dirty := false;
        awaiting, joining := if sockets == map[] then {} else joining, {};
      }
      if sockets == map[] {
        pc := Waiting(true);
      } else {
        pc := Reading(bySet, noticed, []);
      }
    }

    /** `snapshot` as far as its next await: one project's row. */
    method ReadRow(rest: nat)
      requires Valid() && pc.Reading? && |pc.got| < |live|
      modifies `pc
      ensures Snapshot() == Next(old(Snapshot()), Reads(rest)) && Valid()
    {
      StepKeepsInv(Snapshot(), Reads(rest));
      var row := Row(live[|pc.got|], rest);
      pc := pc.(got := pc.got + [row]);
    }

    method SnapshotRaises()
      requires Valid() && pc.Reading?
      modifies `pc, `blind, `awaiting, `forsaken
      ensures Snapshot() == Next(old(Snapshot()), Raises) && Valid()
    {
      StepKeepsInv(Snapshot(), Raises);
      blind := blind || (pc.triggered && pc.seen > known);
      forsaken, awaiting := forsaken + awaiting, {};
      pc := Waiting(sockets == map[]);
    }

    method BeginBroadcast()
      requires pc.Reading?
      modifies `pc, `joining, `awaiting, `forsaken
      ensures Snapshot() == Served(old(Snapshot())).(pc :=
                Sending(old(pc.got), old(pc.seen), sockets.Keys, {}))
    {
      joining, awaiting, forsaken := {}, {}, {};
      pc := Sending(pc.got, pc.seen, sockets.Keys, {});
    }

    /** What is sent, or would have been, is compared with from now on. */
    method RememberPayload(payload: Payload, seen: nat)
      modifies `pc, `lastPayload, `known, `blind
      ensures Snapshot() == Top(Remember(old(Snapshot()), payload, seen))
    {
      lastPayload := Some(payload);
      known, blind := seen, false;
      pc := Waiting(sockets == map[]);
    }

    method FinishSnapshot()
      requires Valid() && pc.Reading? && |pc.got| == |live|
      modifies `pc, `known, `blind, `lastPayload, `joining, `awaiting, `forsaken
      ensures Snapshot() == Next(old(Snapshot()), Completes) && Valid()
    {
      StepKeepsInv(Snapshot(), Completes);
      if (pc.triggered || lastPayload != Some(pc.got)) && sockets != map[] {
        BeginBroadcast();
      } else {
        awaiting := {};
        RememberPayload(pc.got, pc.seen);
      }
    }

    method SendEnds(w: Sock, ok: bool)
      requires Valid() && pc.Sending? && w in pc.todo
      modifies `pc, `sockets, `joining
      ensures Snapshot() == Next(old(Snapshot()), Sends(w, ok)) && Valid()
    {
      StepKeepsInv(Snapshot(), Sends(w, ok));
      if ok && w in sockets {
        sockets := sockets[w := Some(pc.payload)];
        joining := joining - {w};
      }
      pc := Sending(pc.payload, pc.seen, pc.todo - {w}, if ok then pc.failed else pc.failed + {w});
    }

    method FinishBroadcast()
      requires Valid() && pc.Sending? && pc.todo == {}
      modifies `pc, `sockets, `lastPayload, `known, `blind
      ensures Snapshot() == Next(old(Snapshot()), Settles) && Valid()
    {
      StepKeepsInv(Snapshot(), Settles);
      sockets := sockets - pc.failed;
      RememberPayload(pc.payload, pc.seen);
    }
  }
}
