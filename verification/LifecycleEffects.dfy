/** What each segment of the session map's tasks does, read off the state before and after: which
    session it ends, replaces, spares or creates, what becomes of the sockets, the countdowns and
    the lock - and that a session somebody has condemned is gone after that task's next few turns. */
module LifecycleEffects {
  import opened Common
  import opened Lifecycle

  predicate Lives(s: State, k: Key, x: Sid) {
    x < |s.sess| && s.sess[x].key == k && Live(s.sess[x])
  }

  ghost predicate NobodyLives(s: State, k: Key) {
    forall x: Sid :: !Lives(s, k, x)
  }

  /** Of the tasks that exist only t has moved on, to pc. */
  predicate Moves(s: State, n: State, t: Tid, pc: Pc) {
    t < |s.tasks| && n.tasks == s.tasks[t := pc]
  }

  /** The same, and the countdown that x refers to is over if it still sleeps. */
  ghost predicate MovesAndCancels(s: State, n: State, t: Tid, pc: Pc, x: Sid)
    requires x < |s.sess|
  {
    && t < |s.tasks| == |n.tasks| && n.tasks[t] == pc
    && forall u :: 0 <= u < |s.tasks| && u != t ==>
         n.tasks[u] == if s.sess[x].grace == Some(u) && s.tasks[u] == Sleeps(Grace(x)) then Done else s.tasks[u]
  }

  /** Session x has become y; the others are as before. */
  predicate Becomes(s: State, n: State, x: Sid, y: Sess) {
    x < |s.sess| && n.sess == s.sess[x := y]
  }

  predicate SameMaps(s: State, n: State) {
    n.reg == s.reg && n.lock == s.lock
  }

  /** Nothing happened to any session, and at most the key's own entry was forgotten. */
  predicate OnlyForgets(s: State, n: State, k: Key) {
    n.sess == s.sess && n.reg - {k} == s.reg - {k} && (k in n.reg ==> k in s.reg && n.reg[k] == s.reg[k])
  }

  /** Task t has a new session under k: the last one, registered, attached to the task's socket,
      with an idle countdown of its own; the lock is free. */
  predicate Starts(s: State, n: State, t: Tid, k: Key) {
    var x := |s.sess|;
    && t < |s.tasks|
    && n.sess == s.sess + [Sess(k, true, false, Some(t), None)]
    && n.reg == s.reg[k := x] && n.lock == s.lock - {k}
    && n.tasks == s.tasks[t := Open(x)] + [Sleeps(Idle(x))]
  }

  // ---- Looking for the live session ------------------------------------------------------------

  lemma LivingIsFound(s: State, k: Key, x: Sid)
    requires RegOk(s.sess, s.reg) && Owned(s.sess, s.reg) && Lives(s, k, x)
    ensures Pruned(s, k) == s && Found(s, k) == Some(x)
  {
  }

  lemma NobodyIsFound(s: State, k: Key)
    requires RegOk(s.sess, s.reg) && NobodyLives(s, k)
    ensures Found(Pruned(s, k), k).None? && OnlyForgets(s, Pruned(s, k), k)
    ensures var p := Pruned(s, k); p.tasks == s.tasks && p.lock == s.lock && Pruned(p, k) == p
  {
    var p := Pruned(s, k);
    if k in p.reg {
      assert !Lives(s, k, p.reg[k]);
    }
  }

  /** What a reachable state gives the lemmas below. */
  lemma Reached(steps: seq<Step>, s: State)
    requires Run(START, steps, s)
    ensures Coherent(s) && Owned(s.sess, s.reg)
    ensures forall t :: 0 <= t < |s.tasks| ==> TaskOk(s.sess, s.reg, s.tasks[t])
  {
    RunKeepsInv(START, steps, s);
  }

  // ---- Segments, by the parts they change --------------------------------------------------------

  lemma CancelGraceEffect(s: State, x: Sid, t: Tid)
    requires x < |s.sess| && t < |s.tasks| && !s.tasks[t].Sleeps?
    ensures var u := CancelGrace(s, x);
            && Becomes(s, u, x, s.sess[x].(grace := None)) && SameMaps(s, u)
            && MovesAndCancels(s, u, t, s.tasks[t], x)
  {
    assert s.sess[x := s.sess[x]] == s.sess;
  }

  lemma TermBeginsEffect(s: State, t: Tid, k: Key, x: Sid, starts: bool)
    requires t < |s.tasks| && x < |s.sess| && s.sess[x].alive
    ensures var n := TermBegins(s, t, k, x, starts);
            && Becomes(s, n, x, s.sess[x].(terminating := true)) && SameMaps(s, n)
            && Moves(s, n, t, Terminating(k, x, starts))
  {
  }

  /** The old session is dead and no longer the key's; then the task returns or starts a new one. */
  predicate IsTerminated(s: State, n: State, t: Tid, k: Key, x: Sid, starts: bool)
    requires x < |s.sess|
  {
    var dead := s.(sess := s.sess[x := s.sess[x].(alive := false)],
                   reg := if IsRegistered(s, k, x) then s.reg - {k} else s.reg);
    if starts then Starts(dead, n, t, k)
    else n.sess == dead.sess && n.reg == dead.reg && n.lock == s.lock - {k} && Moves(s, n, t, Done)
  }

  lemma TermEndsEffect(s: State, t: Tid, k: Key, x: Sid, starts: bool)
    requires t < |s.tasks| && x < |s.sess|
    ensures IsTerminated(s, TermEnds(s, t, k, x, starts), t, k, x, starts)
  {
    SpawnedEffect(Unregistered(Die(s, x), k, x), t, k);
  }

  lemma SpawnedEffect(s: State, t: Tid, k: Key)
    requires t < |s.tasks|
    ensures Starts(s, Spawned(s, t, k), t, k)
  {
  }

  lemma StagesEffect(s: State, x: Sid, t: Tid, pc: Pc)
    requires x < |s.sess| && t < |s.tasks|
    ensures var n := Go(SetWs(s, x, None), t, pc);
            Becomes(s, n, x, s.sess[x].(ws := None)) && SameMaps(s, n) && Moves(s, n, t, pc)
  {
  }

  // ---- Ending a session ------------------------------------------------------------------------

  /** The session loses its countdown and its socket. If it had a socket, task t sees that off
      first; otherwise the session is marked and being terminated. The lock is kept. */
  ghost predicate Condemned(s: State, n: State, t: Tid, x: Sid, seesOff: Pc, terminates: Pc)
    requires x < |s.sess|
  {
    var served := s.sess[x].ws.Some?;
    && Becomes(s, n, x, s.sess[x].(grace := None, ws := None, terminating := !served))
    && SameMaps(s, n)
    && MovesAndCancels(s, n, t, if served then seesOff else terminates, x)
  }

  lemma DismissEffect(s: State, t: Tid, k: Key, x: Sid)
    requires t < |s.tasks| && x < |s.sess| && !s.tasks[t].Sleeps? && Live(s.sess[x])
    ensures Condemned(s, Dismiss(CancelGrace(s, x), t, k, x), t, x, Farewell(k, x, Queued), Terminating(k, x, false))
  {
    CancelGraceEffect(s, x, t);
    var u := CancelGrace(s, x);
    if u.sess[x].ws.Some? {
      StagesEffect(u, x, t, Farewell(k, x, Queued));
    } else {
      TermBeginsEffect(u, t, k, x, false);
    }
  }

  lemma ReplacesEffect(s: State, t: Tid, k: Key, x: Sid)
    requires t < |s.tasks| && x < |s.sess| && !s.tasks[t].Sleeps? && Live(s.sess[x])
    ensures Condemned(s, Replaces(s, t, k, x), t, x, Replacing(k, x, Stopping), Terminating(k, x, true))
  {
    CancelGraceEffect(s, x, t);
    var u := CancelGrace(s, x);
    if u.sess[x].ws.Some? {
      StagesEffect(u, x, t, Replacing(k, x, Stopping));
    } else {
      TermBeginsEffect(u, t, k, x, true);
    }
  }

  /** An explicit end that has the lock of a key with a live session. */
  lemma EndDecides(steps: seq<Step>, s: State, t: Tid, k: Key, x: Sid, c: Choice)
    requires Run(START, steps, s) && t < |s.tasks| && s.tasks[t] == Holds(k, End) && Lives(s, k, x)
    ensures Coherent(s)
    ensures Condemned(s, Next(s, Proceeds(t, c)), t, x, Farewell(k, x, Queued), Terminating(k, x, false))
  {
    Reached(steps, s);
    LivingIsFound(s, k, x);
    DismissEffect(s, t, k, x);
  }

  /** Without one it answers at once: no session changes, and the lock is free. */
  lemma EndFindsNobody(steps: seq<Step>, s: State, t: Tid, k: Key, c: Choice)
    requires Run(START, steps, s) && t < |s.tasks| && s.tasks[t] == Holds(k, End) && NobodyLives(s, k)
    ensures Coherent(s)
    ensures var n := Next(s, Proceeds(t, c));
            OnlyForgets(s, n, k) && n.lock == s.lock - {k} && Moves(s, n, t, Done)
  {
    Reached(steps, s);
    NobodyIsFound(s, k);
  }

  /** An idle countdown that has the lock dismisses exactly a session that is registered and
      alive, with or without a socket; otherwise it leaves every session and the map alone. */
  lemma IdleDecides(steps: seq<Step>, s: State, t: Tid, k: Key, x: Sid, c: Choice)
    requires Run(START, steps, s) && t < |s.tasks| && s.tasks[t] == Holds(k, Idle(x))
    ensures Coherent(s) && x < |s.sess| && s.sess[x].key == k
    ensures var n := Next(s, Proceeds(t, c));
            if IsRegistered(s, k, x) && s.sess[x].alive then
              && Becomes(s, n, x, if s.sess[x].ws.Some? then s.sess[x].(ws := None) else s.sess[x].(terminating := true))
              && SameMaps(s, n)
              && Moves(s, n, t, if s.sess[x].ws.Some? then Farewell(k, x, Queued) else Terminating(k, x, false))
            else
              n.sess == s.sess && n.reg == s.reg && n.lock == s.lock - {k} && Moves(s, n, t, Done)
  {
    Reached(steps, s);
    assert Refers(s.sess, s.tasks[t]);
    if IsRegistered(s, k, x) && s.sess[x].alive {
      if s.sess[x].ws.Some? {
        StagesEffect(s, x, t, Farewell(k, x, Queued));
      } else {
        TermBeginsEffect(s, t, k, x, false);
      }
    }
  }

  // ---- The route -------------------------------------------------------------------------------

  /** The task's socket is the session's, and the lock is kept while a replay is under way. */
  predicate Connected(s: State, n: State, t: Tid, k: Key, x: Sid, replay: bool)
    requires x < |s.sess|
  {
    && Becomes(s, n, x, s.sess[x].(ws := Some(t))) && n.reg == s.reg
    && n.lock == (if replay then s.lock else s.lock - {k})
    && Moves(s, n, t, if replay then Replaying(k, x) else Open(x))
  }

  /** A route that finds a live session and does not ask for a new one stops its countdown. It
      attaches if there is no socket, and otherwise first takes the previous one off. */
  lemma ReattachDecides(steps: seq<Step>, s: State, t: Tid, k: Key, x: Sid, c: Choice)
    requires Run(START, steps, s) && t < |s.tasks| && s.tasks[t] == Holds(k, Serve(false)) && Lives(s, k, x)
    ensures Coherent(s)
    ensures var n := Next(s, Proceeds(t, c));
            var served := s.sess[x].ws.Some?;
            && Becomes(s, n, x, s.sess[x].(grace := None, ws := if served then None else Some(t)))
            && MovesAndCancels(s, n, t, if served then Reattaching(k, x, Stopping)
                                        else if c.replay then Replaying(k, x) else Open(x), x)
            && n.reg == s.reg && n.lock == (if served || c.replay then s.lock else s.lock - {k})
  {
    Reached(steps, s);
    LivingIsFound(s, k, x);
    AttachEffect(s, t, k, x, c.replay);
  }

  lemma AttachEffect(s: State, t: Tid, k: Key, x: Sid, replay: bool)
    requires t < |s.tasks| && x < |s.sess| && !s.tasks[t].Sleeps?
    ensures var n := AttachBegins(s, t, k, x, replay);
            var served := s.sess[x].ws.Some?;
            && Becomes(s, n, x, s.sess[x].(grace := None, ws := if served then None else Some(t)))
            && MovesAndCancels(s, n, t, if served then Reattaching(k, x, Stopping)
                                        else if replay then Replaying(k, x) else Open(x), x)
            && n.reg == s.reg && n.lock == (if served || replay then s.lock else s.lock - {k})
  {
    CancelGraceEffect(s, x, t);
    var u := CancelGrace(s, x);
    if u.sess[x].ws.Some? {
      StagesEffect(u, x, t, Reattaching(k, x, Stopping));
    } else {
      InstallsEffect(u, t, k, x, replay);
    }
  }

  lemma InstallsEffect(s: State, t: Tid, k: Key, x: Sid, replay: bool)
    requires t < |s.tasks| && x < |s.sess|
    ensures Connected(s, Installs(s, t, k, x, replay), t, k, x, replay)
  {
  }

  /** Mode "new" condemns a live session, to start another in its place. */
  lemma ReplaceDecides(steps: seq<Step>, s: State, t: Tid, k: Key, x: Sid, c: Choice)
    requires Run(START, steps, s) && t < |s.tasks| && s.tasks[t] == Holds(k, Serve(true)) && Lives(s, k, x)
    ensures Coherent(s)
    ensures Condemned(s, Next(s, Proceeds(t, c)), t, x, Replacing(k, x, Stopping), Terminating(k, x, true))
  {
    Reached(steps, s);
    LivingIsFound(s, k, x);
    ReplacesEffect(s, t, k, x);
  }

  /** A route that finds nobody asks for the history first, or starts a session at once. */
  lemma VacantDecides(steps: seq<Step>, s: State, t: Tid, k: Key, afresh: bool, c: Choice)
    requires Run(START, steps, s) && t < |s.tasks| && s.tasks[t] == Holds(k, Serve(afresh)) && NobodyLives(s, k)
    ensures Coherent(s)
    ensures var n := Next(s, Proceeds(t, c));
            if !afresh && c.history then OnlyForgets(s, n, k) && n.lock == s.lock && Moves(s, n, t, LooksUp(k))
            else Starts(s, n, t, k)
  {
    Reached(steps, s);
    NobodyIsFound(s, k);
    SpawnedEffect(Pruned(s, k), t, k);
  }

  /** The history cannot be had: the route ends and frees the lock, and nothing else changes. */
  lemma FailedLookupDecides(steps: seq<Step>, s: State, t: Tid, k: Key, c: Choice)
    requires Run(START, steps, s) && t < |s.tasks|
    requires (s.tasks[t] == LooksUp(k) && c.fails) || s.tasks[t] == Unwinding(k)
    ensures Coherent(s)
    ensures var n := Next(s, Proceeds(t, c));
            && n.sess == s.sess && n.reg == s.reg
            && if s.tasks[t].LooksUp? then n.lock == s.lock && Moves(s, n, t, Unwinding(k))
               else n.lock == s.lock - {k} && Moves(s, n, t, Done)
  {
    Reached(steps, s);
  }

  // ---- Seeing a socket off, and what comes after ---------------------------------------------------

  predicate OnErrand(pc: Pc) {
    pc.Reattaching? || pc.Replacing? || pc.Farewell?
  }

  /** A stopped writer is followed by the close of its socket, and a queued close that is late by a
      stopped writer; meanwhile nothing else changes. After that an attach connects the new socket.
      A replacement or an end terminates the session - or, if its child has exited meanwhile,
      finishes at once. */
  lemma ErrandDecides(steps: seq<Step>, s: State, t: Tid, c: Choice)
    requires Run(START, steps, s) && t < |s.tasks| && OnErrand(s.tasks[t])
    ensures Coherent(s) && s.tasks[t].x < |s.sess|
    ensures var pc := s.tasks[t];
            var n := Next(s, Proceeds(t, c));
            if pc.stage.Stopping? || (pc.Farewell? && pc.stage.Queued? && c.late) then
              && n.sess == s.sess && SameMaps(s, n)
              && Moves(s, n, t, pc.(stage := if pc.stage.Stopping? then Closing else Stopping))
            else if pc.Reattaching? then Connected(s, n, t, pc.key, pc.x, c.replay)
            else if s.sess[pc.x].alive then
              && Becomes(s, n, pc.x, s.sess[pc.x].(terminating := true)) && SameMaps(s, n)
              && Moves(s, n, t, Terminating(pc.key, pc.x, pc.Replacing?))
            else IsTerminated(s, n, t, pc.key, pc.x, pc.Replacing?)
  {
    Reached(steps, s);
    var pc := s.tasks[t];
    assert Refers(s.sess, pc);
    if pc.stage.Stopping? || (pc.Farewell? && pc.stage.Queued? && c.late) {
    } else if pc.Reattaching? {
      InstallsEffect(s, t, pc.key, pc.x, c.replay);
    } else if s.sess[pc.x].alive {
      TermBeginsEffect(s, t, pc.key, pc.x, pc.Replacing?);
    } else {
      TermEndsEffect(s, t, pc.key, pc.x, pc.Replacing?);
    }
  }

  /** A finished termination leaves the session dead and off the map, whoever called for it; after
      a replacement the key names a new session, alive and served by this task. */
  lemma TerminationDecides(steps: seq<Step>, s: State, t: Tid, c: Choice)
    requires Run(START, steps, s) && t < |s.tasks| && s.tasks[t].Terminating?
    ensures Coherent(s) && s.tasks[t].x < |s.sess|
    ensures IsTerminated(s, Next(s, Proceeds(t, c)), t, s.tasks[t].key, s.tasks[t].x, s.tasks[t].starts)
    ensures var n := Next(s, Proceeds(t, c));
            && Gone(n, s.tasks[t].key, s.tasks[t].x)
            && if s.tasks[t].starts then Found(n, s.tasks[t].key) == Some(|s.sess|) && Lives(n, s.tasks[t].key, |s.sess|)
               else s.tasks[t].key !in n.lock
  {
    Reached(steps, s);
    assert Refers(s.sess, s.tasks[t]);
    TermEndsEffect(s, t, s.tasks[t].key, s.tasks[t].x, s.tasks[t].starts);
  }

  // ---- Sockets and countdowns --------------------------------------------------------------------

  /** The end of a replay, and of a connection. A route whose socket is still the session's takes it
      off and stops its writer; one that has been replaced changes nothing. */
  lemma DisconnectDecides(steps: seq<Step>, s: State, t: Tid, c: Choice)
    requires Run(START, steps, s) && t < |s.tasks| && (s.tasks[t].Replaying? || s.tasks[t].Open?)
    ensures Coherent(s) && s.tasks[t].x < |s.sess|
    ensures var x := s.tasks[t].x;
            var n := Next(s, Proceeds(t, c));
            if s.tasks[t].Replaying? then
              n.sess == s.sess && n.reg == s.reg && n.lock == s.lock - {s.tasks[t].key} && Moves(s, n, t, Open(x))
            else if s.sess[x].ws == Some(t) then
              Becomes(s, n, x, s.sess[x].(ws := None)) && SameMaps(s, n) && Moves(s, n, t, Detaching(x))
            else n.sess == s.sess && SameMaps(s, n) && Moves(s, n, t, Done)
  {
    Reached(steps, s);
    assert Refers(s.sess, s.tasks[t]);
  }

  /** Its writer stopped, a route leaves a living session with a countdown that has just started,
      and a dead one without. A cancellation makes no difference. */
  lemma CountdownStarts(steps: seq<Step>, s: State, t: Tid, x: Sid, c: Choice)
    requires Run(START, steps, s) && t < |s.tasks| && s.tasks[t] == Detaching(x)
    ensures Coherent(s) && x < |s.sess|
    ensures Next(s, Cancelled(t)) == Next(s, Proceeds(t, c))
    ensures var n := Next(s, Proceeds(t, c));
            && SameMaps(s, n)
            && if s.sess[x].alive then
                 && Becomes(s, n, x, s.sess[x].(grace := Some(|s.tasks|)))
                 && n.tasks == s.tasks[t := Done] + [Sleeps(Grace(x))]
               else n.sess == s.sess && Moves(s, n, t, Done)
  {
    Reached(steps, s);
    assert Refers(s.sess, s.tasks[t]);
  }

  /** A countdown that is over asks for the lock of its session's key; a grace countdown is then
      no longer the session's, so that nobody can cancel it. */
  lemma CountdownFires(steps: seq<Step>, s: State, t: Tid, c: Choice)
    requires Run(START, steps, s) && t < |s.tasks| && s.tasks[t].Sleeps?
    ensures Coherent(s)
    ensures var job := s.tasks[t].job;
            && (job.Grace? || job.Idle?) && job.x < |s.sess|
            && var n := Next(s, Proceeds(t, c));
            && SameMaps(s, n) && Moves(s, n, t, Waits(s.sess[job.x].key, job))
            && Becomes(s, n, job.x, if job.Grace? then s.sess[job.x].(grace := None) else s.sess[job.x])
  {
    Reached(steps, s);
    assert Refers(s.sess, s.tasks[t]);
    assert forall x :: 0 <= x < |s.sess| ==> s.sess[x := s.sess[x]] == s.sess;
  }

  /** A route or a request to end a session begins by waiting for the key's lock. */
  lemma ArrivalDecides(steps: seq<Step>, s: State, k: Key, afresh: bool)
    requires Run(START, steps, s)
    ensures Coherent(s)
    ensures Next(s, Connects(k, afresh)) == s.(tasks := s.tasks + [Waits(k, Serve(afresh))])
    ensures Next(s, Asks(k)) == s.(tasks := s.tasks + [Waits(k, End)])
  {
    Reached(steps, s);
  }

  /** The lock goes to a task that waits for it, when it is free. */
  lemma LockDecides(steps: seq<Step>, s: State, t: Tid, c: Choice)
    requires Run(START, steps, s) && Enabled(s, Proceeds(t, c)) && s.tasks[t].Waits?
    ensures var n := Next(s, Proceeds(t, c));
            && s.tasks[t].key !in s.lock && n.lock == s.lock[s.tasks[t].key := t]
            && n.sess == s.sess && n.reg == s.reg && Moves(s, n, t, Holds(s.tasks[t].key, s.tasks[t].job))
  {
  }

  /** A child's exit leaves its session dead and without a socket; its entry stays until somebody
      looks. Looking forgets exactly a dead entry. */
  lemma ExitDecides(steps: seq<Step>, s: State, x: Sid, k: Key)
    requires Run(START, steps, s) && x < |s.sess|
    ensures Coherent(s)
    ensures var n := Next(s, Exits(x));
            && SameMaps(s, n) && n.tasks == s.tasks
            && Becomes(s, n, x, if s.sess[x].alive then s.sess[x].(alive := false, ws := None) else s.sess[x])
    ensures var n := Next(s, Peeks(k));
            && n.sess == s.sess && n.lock == s.lock && n.tasks == s.tasks
            && n.reg == if k in s.reg && !s.sess[s.reg[k]].alive then s.reg - {k} else s.reg
  {
    Reached(steps, s);
    assert s.sess[x := s.sess[x]] == s.sess;
  }

  /** A cancelled task that is stopping a writer goes on to close the socket. One that is being
      attached, or attached, lets go of its own socket and no other. Any other ends where it is and
      frees its lock, whatever it had set out to do. */
  lemma CancelDecides(steps: seq<Step>, s: State, t: Tid)
    requires Run(START, steps, s) && Enabled(s, Cancelled(t)) && !s.tasks[t].Detaching?
    ensures var pc := s.tasks[t];
            var n := Next(s, Cancelled(t));
            && n.reg == s.reg
            && if pc.Replaying? || pc.Open? then
                 && pc.x < |s.sess| && n.lock == s.lock
                 && Becomes(s, n, pc.x, if s.sess[pc.x].ws == Some(t) then s.sess[pc.x].(ws := None) else s.sess[pc.x])
                 && Moves(s, n, t, if pc.Replaying? then Unwinding(pc.key)
                                   else if s.sess[pc.x].ws == Some(t) then Detaching(pc.x) else Done)
               else if OnErrand(pc) && pc.stage.Stopping? then
                 n.sess == s.sess && n.lock == s.lock && Moves(s, n, t, pc.(stage := Closing))
               else
                 && n.sess == s.sess && Moves(s, n, t, Done)
                 && n.lock == match Held(pc) { case Some(k) => s.lock - {k} case None => s.lock }
  {
    Reached(steps, s);
    assert Refers(s.sess, s.tasks[t]);
    assert forall x :: 0 <= x < |s.sess| ==> s.sess[x := s.sess[x]] == s.sess;
  }

  // ---- A condemned session goes --------------------------------------------------------------------

  /** Nothing undoes a death, a mark or a removal. */
  ghost predicate Ages(s: State, n: State) {
    && |s.sess| <= |n.sess| && |s.tasks| <= |n.tasks|
    && (forall y :: 0 <= y < |s.sess| ==>
          && n.sess[y].key == s.sess[y].key && (n.sess[y].alive ==> s.sess[y].alive)
          && (s.sess[y].terminating ==> n.sess[y].terminating))
    && (forall k: Key, y: Sid :: y < |s.sess| && IsRegistered(n, k, y) ==> IsRegistered(s, k, y))
  }

  predicate Gone(s: State, k: Key, x: Sid) {
    x < |s.sess| && !s.sess[x].alive && !IsRegistered(s, k, x)
  }

  /** Task t is set on ending session x of key k. */
  predicate Dooms(pc: Pc, k: Key, x: Sid) {
    pc == Terminating(k, x, true) || pc == Terminating(k, x, false)
    || ((pc.Replacing? || pc.Farewell?) && pc.key == k && pc.x == x)
  }

  /** How many turns it needs at most. */
  function TurnsLeft(pc: Pc): nat {
    if pc.Terminating? then 1
    else if pc.Replacing? || pc.Farewell? then
      match pc.stage case Queued => 4 case Stopping => 3 case Closing => 2
    else 0
  }

  function Turns(steps: seq<Step>, t: Tid): nat
    decreases |steps|
  {
    if steps == [] then 0
    else (if steps[0].Proceeds? && steps[0].t == t then 1 else 0) + Turns(steps[1..], t)
  }

  ghost predicate Uncancelled(steps: seq<Step>, t: Tid) {
    Cancelled(t) !in steps
  }

  /** A step ages every session, and leaves every other task that does not sleep alone. */
  ghost predicate StepsOn(s: State, n: State, t: Tid) {
    && Ages(s, n)
    && (forall u :: 0 <= u < |s.tasks| && u != t && !s.tasks[u].Sleeps? ==> n.tasks[u] == s.tasks[u])
  }

  lemma TermEndsAges(s: State, t: Tid, k: Key, x: Sid, starts: bool)
    requires t < |s.tasks| && x < |s.sess| && (starts ==> Only(s.reg, k, x))
    ensures StepsOn(s, TermEnds(s, t, k, x, starts), t) && Gone(TermEnds(s, t, k, x, starts), k, x)
  {
  }

  lemma TermBeginsAges(s: State, t: Tid, k: Key, x: Sid, starts: bool)
    requires t < |s.tasks| && x < |s.sess| && (starts ==> Only(s.reg, k, x))
    ensures StepsOn(s, TermBegins(s, t, k, x, starts), t)
  {
    if !s.sess[x].alive {
      TermEndsAges(s, t, k, x, starts);
    }
  }

  lemma AgesTwice(s: State, m: State, n: State, t: Tid)
    requires StepsOn(s, m, t) && StepsOn(m, n, t)
    ensures StepsOn(s, n, t)
  {
    forall u | 0 <= u < |s.tasks| && u != t && !s.tasks[u].Sleeps? ensures n.tasks[u] == s.tasks[u] {
      assert m.tasks[u] == s.tasks[u];
    }
  }

  lemma CancelGraceAges(s: State, t: Tid, x: Sid)
    requires x < |s.sess|
    ensures StepsOn(s, CancelGrace(s, x), t)
  {
  }

  lemma DismissAges(s: State, t: Tid, k: Key, x: Sid)
    requires t < |s.tasks| && x < |s.sess|
    ensures StepsOn(s, Dismiss(s, t, k, x), t)
  {
    if s.sess[x].ws.None? {
      TermBeginsAges(s, t, k, x, false);
    }
  }

  lemma ReplacesAges(s: State, t: Tid, k: Key, x: Sid)
    requires t < |s.tasks| && x < |s.sess| && Only(s.reg, k, x)
    ensures StepsOn(s, Replaces(s, t, k, x), t)
  {
    CancelGraceAges(s, t, x);
    var u := CancelGrace(s, x);
    if u.sess[x].ws.None? {
      TermBeginsAges(u, t, k, x, true);
    }
    AgesTwice(s, u, Replaces(s, t, k, x), t);
  }

  lemma StartAges(s: State, t: Tid, k: Key)
    requires t < |s.tasks| && RegOk(s.sess, s.reg)
    ensures StepsOn(s, StartLocked(s, t, k), t)
  {
    var p := Pruned(s, k);
    if Found(p, k).Some? {
      ReplacesAges(p, t, k, Found(p, k).value);
    }
    AgesTwice(s, p, StartLocked(s, t, k), t);
  }

  lemma AttachAges(s: State, t: Tid, k: Key, x: Sid, replay: bool)
    requires t < |s.tasks| && x < |s.sess|
    ensures StepsOn(s, AttachBegins(s, t, k, x, replay), t)
  {
    CancelGraceAges(s, t, x);
    AgesTwice(s, CancelGrace(s, x), AttachBegins(s, t, k, x, replay), t);
  }

  lemma ServeAges(s: State, t: Tid, k: Key, afresh: bool, c: Choice)
    requires t < |s.tasks| && RegOk(s.sess, s.reg)
    ensures StepsOn(s, Serves(s, t, k, afresh, c), t)
  {
    var p := Pruned(s, k);
    if Found(p, k).Some? && !afresh {
      AttachAges(p, t, k, Found(p, k).value, c.replay);
    } else if afresh || !c.history {
      StartAges(p, t, k);
    }
    AgesTwice(s, p, Serves(s, t, k, afresh, c), t);
  }

  lemma EndAges(s: State, t: Tid, k: Key)
    requires t < |s.tasks| && RegOk(s.sess, s.reg)
    ensures StepsOn(s, Ends(s, t, k), t)
  {
    var p := Pruned(s, k);
    if Found(p, k).Some? {
      var x := Found(p, k).value;
      CancelGraceAges(p, t, x);
      DismissAges(CancelGrace(p, x), t, k, x);
      AgesTwice(p, CancelGrace(p, x), Ends(s, t, k), t);
    }
    AgesTwice(s, p, Ends(s, t, k), t);
  }

  lemma JobAges(s: State, t: Tid, k: Key, job: Job, c: Choice)
    requires t < |s.tasks| && RegOk(s.sess, s.reg) && ((job.Grace? || job.Idle?) ==> job.x < |s.sess|)
    ensures StepsOn(s, JobHeld(s, t, k, job, c), t)
  {
    match job
    case Serve(afresh) => ServeAges(s, t, k, afresh, c);
    case End => EndAges(s, t, k);
    case Grace(x) => TermBeginsAges(s, t, k, x, false);
    case Idle(x) => DismissAges(s, t, k, x);
  }

  lemma ErrandAges(s: State, t: Tid, c: Choice)
    requires RegOk(s.sess, s.reg) && t < |s.tasks| && TaskOk(s.sess, s.reg, s.tasks[t])
    requires OnErrand(s.tasks[t]) || s.tasks[t].Terminating?
    ensures StepsOn(s, AfterProceed(s, t, c), t)
  {
    var pc := s.tasks[t];
    if pc.Terminating? {
      TermEndsAges(s, t, pc.key, pc.x, pc.starts);
    } else if !pc.Reattaching? {
      TermBeginsAges(s, t, pc.key, pc.x, pc.Replacing?);
    }
  }

  lemma ProceedAges(s: State, t: Tid, c: Choice)
    requires RegOk(s.sess, s.reg) && t < |s.tasks| && TaskOk(s.sess, s.reg, s.tasks[t])
    ensures StepsOn(s, AfterProceed(s, t, c), t)
  {
    match s.tasks[t]
    case Holds(k, job) => JobAges(s, t, k, job, c);
    case LooksUp(k) => if !c.fails { StartAges(s, t, k); }
    case pc => if OnErrand(pc) || pc.Terminating? { ErrandAges(s, t, c); }
  }

  lemma CancelAges(s: State, t: Tid)
    requires t < |s.tasks| && Refers(s.sess, s.tasks[t])
    ensures StepsOn(s, AfterCancel(s, t), t)
  {
  }

  /** No session comes back to life, no mark is taken off, and no entry is restored: whatever a key
      names later, it is a session started later. */
  lemma StepAges(s: State, step: Step, t: Tid)
    requires Inv(s) && Enabled(s, step)
    requires (step.Proceeds? || step.Cancelled?) ==> step.t == t
    ensures StepsOn(s, Next(s, step), t)
  {
    match step
    case Proceeds(_, c) => assert TaskOk(s.sess, s.reg, s.tasks[t]); ProceedAges(s, t, c);
    case Cancelled(_) => CancelAges(s, t);
    case _ =>
  }

  /** One turn of a task that dooms a session brings it closer to its end, or there. */
  lemma DoomedTurn(s: State, t: Tid, c: Choice, k: Key, x: Sid)
    requires Inv(s) && Enabled(s, Proceeds(t, c)) && Dooms(s.tasks[t], k, x)
    ensures var n := Next(s, Proceeds(t, c));
            Gone(n, k, x) || (Dooms(n.tasks[t], k, x) && TurnsLeft(n.tasks[t]) < TurnsLeft(s.tasks[t]))
  {
    var pc := s.tasks[t];
    assert TaskOk(s.sess, s.reg, pc);
    if pc.Terminating? {
      TermEndsAges(s, t, k, x, pc.starts);
    } else if !pc.stage.Stopping? && !(pc.Farewell? && pc.stage.Queued? && c.late) && !s.sess[x].alive {
      TermEndsAges(s, t, k, x, pc.Replacing?);
    }
  }

  /** The session has gone, or task t needs at most so many turns more. */
  predicate OnItsWay(s: State, t: Tid, k: Key, x: Sid, turns: int) {
    Gone(s, k, x) || (t < |s.tasks| && x < |s.sess| && Dooms(s.tasks[t], k, x) && TurnsLeft(s.tasks[t]) <= turns)
  }

  lemma OnItsWayStep(s: State, step: Step, t: Tid, k: Key, x: Sid, turns: int)
    requires Inv(s) && Enabled(s, step) && step != Cancelled(t) && OnItsWay(s, t, k, x, turns)
    ensures OnItsWay(Next(s, step), t, k, x, if step.Proceeds? && step.t == t then turns - 1 else turns)
  {
    if Gone(s, k, x) {
      StepAges(s, step, if step.Proceeds? || step.Cancelled? then step.t else 0);
    } else if step.Proceeds? && step.t == t {
      StepAges(s, step, t);
      DoomedTurn(s, t, step.c, k, x);
    } else if step.Proceeds? || step.Cancelled? {
      StepAges(s, step, step.t);
    } else {
      StepAges(s, step, |s.tasks|);
    }
  }

  lemma {:induction false} OnItsWayRun(s: State, steps: seq<Step>, e: State, t: Tid, k: Key, x: Sid, turns: int)
    requires Inv(s) && Run(s, steps, e) && Uncancelled(steps, t) && OnItsWay(s, t, k, x, turns)
    ensures OnItsWay(e, t, k, x, turns - Turns(steps, t))
    decreases |steps|
  {
    if steps != [] {
      assert steps[0] in steps;
      assert Uncancelled(steps[1..], t);
      OnItsWayStep(s, steps[0], t, k, x, turns);
      StepKeepsInv(s, steps[0]);
      OnItsWayRun(Next(s, steps[0]), steps[1..], e, t, k, x,
                  if steps[0].Proceeds? && steps[0].t == t then turns - 1 else turns);
    }
  }

  /** The job, now that its task has the lock, is to be session x's end: an explicit end or a new
      session asked for while x lives, an idle countdown of the registered living session, a grace
      countdown of one that has no socket either. */
  predicate Condemns(s: State, job: Job, k: Key, x: Sid) {
    match job
    case Serve(afresh) => afresh && Lives(s, k, x)
    case End => Lives(s, k, x)
    case Idle(y) => y == x && x < |s.sess| && IsRegistered(s, k, x) && s.sess[x].alive
    case Grace(y) => y == x && x < |s.sess| && IsRegistered(s, k, x) && s.sess[x].alive && s.sess[x].ws.None?
  }

  lemma CondemnedIsOnItsWay(steps: seq<Step>, s: State, t: Tid, k: Key, job: Job, x: Sid, c: Choice)
    requires Run(START, steps, s) && t < |s.tasks| && s.tasks[t] == Holds(k, job) && Condemns(s, job, k, x)
    ensures Coherent(s) && OnItsWay(Next(s, Proceeds(t, c)), t, k, x, 4)
  {
    match job
    case Serve(afresh) => ReplaceDecides(steps, s, t, k, x, c);
    case End => EndDecides(steps, s, t, k, x, c);
    case Idle(_) => IdleDecides(steps, s, t, k, x, c);
    case Grace(_) =>
      Reached(steps, s);
      TermBeginsEffect(s, t, k, x, false);
  }

  lemma Arrived(e: State, t: Tid, k: Key, x: Sid, turns: int)
    requires OnItsWay(e, t, k, x, turns) && (turns <= 0 || (t < |e.tasks| && !Dooms(e.tasks[t], k, x)))
    ensures Gone(e, k, x)
  {
  }

  lemma OnItsWayFromThere(before: seq<Step>, s: State, t: Tid, k: Key, x: Sid, c: Choice, after: seq<Step>, e: State)
    requires Run(START, before, s) && Enabled(s, Proceeds(t, c)) && OnItsWay(Next(s, Proceeds(t, c)), t, k, x, 4)
    requires Run(Next(s, Proceeds(t, c)), after, e) && Uncancelled(after, t)
    ensures OnItsWay(e, t, k, x, 4 - Turns(after, t))
  {
    RunKeepsInv(START, before, s);
    StepKeepsInv(s, Proceeds(t, c));
    OnItsWayRun(Next(s, Proceeds(t, c)), after, e, t, k, x, 4);
  }

  /** Whatever else happens meanwhile, and whoever else is cancelled: if that task is not, the
      session is dead and off the map after four more turns of it, and from the moment the task is
      no longer busy with it; it stays so for good. */
  lemma CondemnedIsGone(before: seq<Step>, s: State, t: Tid, k: Key, job: Job, x: Sid, c: Choice,
                        after: seq<Step>, e: State)
    requires Run(START, before, s) && t < |s.tasks| && s.tasks[t] == Holds(k, job) && Condemns(s, job, k, x)
    requires Enabled(s, Proceeds(t, c)) && Run(Next(s, Proceeds(t, c)), after, e) && Uncancelled(after, t)
    requires Turns(after, t) >= 4 || (t < |e.tasks| && !Dooms(e.tasks[t], k, x))
    ensures Gone(e, k, x)
  {
    CondemnedIsOnItsWay(before, s, t, k, job, x, c);
    OnItsWayFromThere(before, s, t, k, x, c, after, e);
    Arrived(e, t, k, x, 4 - Turns(after, t));
  }

  /** Over any stretch of a run sessions only age. */
  lemma {:induction false} NothingReturns(s: State, steps: seq<Step>, e: State)
    requires Inv(s) && Run(s, steps, e)
    ensures Ages(s, e)
    decreases |steps|
  {
    if steps != [] {
      var step := steps[0];
      StepAges(s, step, if step.Proceeds? || step.Cancelled? then step.t else 0);
      StepKeepsInv(s, step);
      NothingReturns(Next(s, step), steps[1..], e);
    }
  }
}
