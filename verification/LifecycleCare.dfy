/** No living session is forgotten: one without a socket has a countdown, or a task is busy with
    it - exactly if no cancellation ever hits the last such task. `cancel_grace` is not such a
    cancellation, and a task that is stopping a writer survives one. */
module LifecycleCare {
  import opened Common
  import opened Lifecycle

  // ---- What it means -------------------------------------------------------------------------

  /** The task will see to session x: arm its countdown, expire it, give it a socket or end it. */
  predicate Minds(pc: Pc, x: Sid) {
    || pc == Detaching(x)
    || ((pc.Sleeps? || pc.Waits? || pc.Holds?) && pc.job == Grace(x))
    || ((pc.Reattaching? || pc.Replacing? || pc.Farewell?) && pc.x == x)
  }

  predicate IsEnding(pc: Pc, x: Sid) {
    pc.Terminating? && pc.x == x
  }

  /** A session that is alive without a socket needs a task: one that minds it, or once it is
      terminating one that ends it. */
  predicate Cares(pc: Pc, s: Sess, x: Sid) {
    if s.terminating then IsEnding(pc, x) else Minds(pc, x)
  }

  ghost predicate CaredFor(s: State, x: Sid)
    requires x < |s.sess|
  {
    s.sess[x].alive && s.sess[x].ws.None? ==> exists t :: 0 <= t < |s.tasks| && Cares(s.tasks[t], s.sess[x], x)
  }

  ghost predicate AllCaredFor(s: State) {
    forall x :: 0 <= x < |s.sess| ==> CaredFor(s, x)
  }

  // ---- Sessions a step is not about -------------------------------------------------------------

  /** Session y and the tasks about it are as before. */
  ghost predicate LeavesAlone(s: State, n: State, y: Sid)
    requires y < |s.sess|
  {
    && y < |n.sess| && n.sess[y] == s.sess[y] && |s.tasks| <= |n.tasks|
    && forall t :: 0 <= t < |s.tasks| && About(s.tasks[t]) == Some(y) ==> n.tasks[t] == s.tasks[t]
  }

  lemma LeftAloneIsCaredFor(s: State, n: State, y: Sid)
    requires y < |s.sess| && LeavesAlone(s, n, y) && CaredFor(s, y)
    ensures CaredFor(n, y)
  {
    if n.sess[y].alive && n.sess[y].ws.None? {
      var t :| 0 <= t < |s.tasks| && Cares(s.tasks[t], s.sess[y], y);
      assert About(s.tasks[t]) == Some(y);
      assert Cares(n.tasks[t], n.sess[y], y);
    }
  }

  /** What a step by task t for session x leaves alone. */
  ghost predicate OnlyTouches(s: State, n: State, x: Sid) {
    && |s.sess| <= |n.sess|
    && (forall y :: 0 <= y < |s.sess| && y != x ==> LeavesAlone(s, n, y))
    && (forall y :: |s.sess| <= y < |n.sess| ==> n.sess[y].ws.Some?)
  }

  predicate ConcernsOnly(s: State, t: Tid, x: Sid) {
    t < |s.tasks| && (About(s.tasks[t]) == None || About(s.tasks[t]) == Some(x))
  }

  lemma CancelGraceTouches(s: State, x: Sid)
    requires x < |s.sess|
    ensures OnlyTouches(s, CancelGrace(s, x), x)
  {
  }

  lemma SpawnedTouches(s: State, t: Tid, k: Key, x: Sid)
    requires ConcernsOnly(s, t, x)
    ensures OnlyTouches(s, Spawned(s, t, k), x)
    ensures x < |s.sess| ==> Spawned(s, t, k).sess[x] == s.sess[x]
  {
  }

  lemma TermTouches(s: State, t: Tid, k: Key, x: Sid, starts: bool)
    requires ConcernsOnly(s, t, x) && x < |s.sess|
    ensures OnlyTouches(s, TermEnds(s, t, k, x, starts), x)
    ensures OnlyTouches(s, TermBegins(s, t, k, x, starts), x)
  {
    SpawnedTouches(Unregistered(Die(s, x), k, x), t, k, x);
  }

  lemma TouchesTwice(s: State, m: State, n: State, x: Sid)
    requires OnlyTouches(s, m, x) && OnlyTouches(m, n, x) && |m.sess| == |s.sess|
    requires forall t :: 0 <= t < |s.tasks| && About(s.tasks[t]).Some? && About(s.tasks[t]) != Some(x) ==>
               t < |m.tasks| && m.tasks[t] == s.tasks[t]
    ensures OnlyTouches(s, n, x)
  {
    forall y | 0 <= y < |s.sess| && y != x ensures LeavesAlone(s, n, y) {
      assert LeavesAlone(s, m, y) && LeavesAlone(m, n, y);
    }
  }

  // ---- The session a step is about ----------------------------------------------------------------

  lemma TermEndsCares(s: State, t: Tid, k: Key, x: Sid, starts: bool)
    requires t < |s.tasks| && x < |s.sess|
    ensures CaredFor(TermEnds(s, t, k, x, starts), x)
  {
  }

  lemma TermBeginsCares(s: State, t: Tid, k: Key, x: Sid, starts: bool)
    requires t < |s.tasks| && x < |s.sess|
    ensures CaredFor(TermBegins(s, t, k, x, starts), x)
  {
    if s.sess[x].alive {
      assert Cares(TermBegins(s, t, k, x, starts).tasks[t], TermBegins(s, t, k, x, starts).sess[x], x);
    } else {
      TermEndsCares(s, t, k, x, starts);
    }
  }

  lemma Together(s: State, n: State, x: Sid)
    requires AllCaredFor(s) && OnlyTouches(s, n, x) && (x < |n.sess| ==> CaredFor(n, x))
    ensures AllCaredFor(n)
  {
    forall y | 0 <= y < |n.sess| ensures CaredFor(n, y) {
      if y != x && y < |s.sess| {
        LeftAloneIsCaredFor(s, n, y);
      }
    }
  }

  /** A step in which task t moves on and cares for as much as before. */
  lemma MovingOnCares(s: State, n: State, t: Tid)
    requires AllCaredFor(s) && t < |s.tasks| <= |n.tasks| && |n.sess| == |s.sess|
    requires forall x :: 0 <= x < |s.sess| ==> n.sess[x] == s.sess[x].(grace := n.sess[x].grace)
    requires forall u :: 0 <= u < |s.tasks| && u != t ==> n.tasks[u] == s.tasks[u]
    requires forall x :: 0 <= x < |s.sess| && Cares(s.tasks[t], s.sess[x], x) ==> Cares(n.tasks[t], s.sess[x], x)
    ensures AllCaredFor(n)
  {
    forall x | 0 <= x < |s.sess| ensures CaredFor(n, x) {
      if n.sess[x].alive && n.sess[x].ws.None? {
        assert CaredFor(s, x);
        var u :| 0 <= u < |s.tasks| && Cares(s.tasks[u], s.sess[x], x);
        assert Cares(n.tasks[u], n.sess[x], x);
      }
    }
  }

  // ---- Segments -----------------------------------------------------------------------------------

  lemma TermBeginsKeepsCare(s: State, t: Tid, k: Key, x: Sid, starts: bool)
    requires AllCaredFor(s) && ConcernsOnly(s, t, x) && x < |s.sess|
    ensures AllCaredFor(TermBegins(s, t, k, x, starts))
  {
    TermTouches(s, t, k, x, starts);
    TermBeginsCares(s, t, k, x, starts);
    Together(s, TermBegins(s, t, k, x, starts), x);
  }

  lemma TermEndsKeepsCare(s: State, t: Tid, k: Key, x: Sid, starts: bool)
    requires AllCaredFor(s) && ConcernsOnly(s, t, x) && x < |s.sess|
    ensures AllCaredFor(TermEnds(s, t, k, x, starts))
  {
    TermTouches(s, t, k, x, starts);
    TermEndsCares(s, t, k, x, starts);
    Together(s, TermEnds(s, t, k, x, starts), x);
  }

  /** Taking the socket off a living session, by a task that minds it from then on. */
  function TakesOff(s: State, t: Tid, x: Sid, pc: Pc): State
    requires t < |s.tasks| && x < |s.sess|
  {
    Go(SetWs(s, x, None), t, pc)
  }

  lemma TakesOffKeepsCare(s: State, t: Tid, x: Sid, pc: Pc)
    requires AllCaredFor(s) && ConcernsOnly(s, t, x) && x < |s.sess| && !s.sess[x].terminating && Minds(pc, x)
    ensures AllCaredFor(TakesOff(s, t, x, pc))
  {
    var n := TakesOff(s, t, x, pc);
    assert Cares(n.tasks[t], n.sess[x], x);
    Together(s, n, x);
  }

  lemma InstallsKeepsCare(s: State, t: Tid, k: Key, x: Sid, replay: bool)
    requires AllCaredFor(s) && ConcernsOnly(s, t, x) && x < |s.sess|
    ensures AllCaredFor(Installs(s, t, k, x, replay))
  {
    Together(s, Installs(s, t, k, x, replay), x);
  }

  /** What follows `cancel_grace` cares for the session itself, whatever was cancelled. */
  lemma AfterCancelGrace(s: State, t: Tid, x: Sid, n: State)
    requires AllCaredFor(s) && x < |s.sess| && ConcernsOnly(s, t, x) && !s.tasks[t].Sleeps?
    requires OnlyTouches(CancelGrace(s, x), n, x) && CaredFor(n, x)
    ensures AllCaredFor(n)
  {
    CancelGraceTouches(s, x);
    TouchesTwice(s, CancelGrace(s, x), n, x);
    Together(s, n, x);
  }

  lemma AttachKeepsCare(s: State, t: Tid, k: Key, x: Sid, replay: bool)
    requires AllCaredFor(s) && x < |s.sess| && ConcernsOnly(s, t, x) && !s.tasks[t].Sleeps? && !s.sess[x].terminating
    ensures AllCaredFor(AttachBegins(s, t, k, x, replay))
  {
    var u := CancelGrace(s, x);
    var n := AttachBegins(s, t, k, x, replay);
    if u.sess[x].ws.Some? {
      assert Cares(n.tasks[t], n.sess[x], x);
    }
    AfterCancelGrace(s, t, x, n);
  }

  lemma ReplacesKeepsCare(s: State, t: Tid, k: Key, x: Sid)
    requires AllCaredFor(s) && x < |s.sess| && ConcernsOnly(s, t, x) && !s.tasks[t].Sleeps? && !s.sess[x].terminating
    ensures AllCaredFor(Replaces(s, t, k, x))
  {
    var u := CancelGrace(s, x);
    var n := Replaces(s, t, k, x);
    if u.sess[x].ws.Some? {
      assert Cares(n.tasks[t], n.sess[x], x);
    } else {
      TermTouches(u, t, k, x, true);
      TermBeginsCares(u, t, k, x, true);
    }
    AfterCancelGrace(s, t, x, n);
  }

  lemma EndKeepsCare(s: State, t: Tid, k: Key, x: Sid)
    requires AllCaredFor(s) && x < |s.sess| && ConcernsOnly(s, t, x) && !s.tasks[t].Sleeps? && !s.sess[x].terminating
    ensures AllCaredFor(Dismiss(CancelGrace(s, x), t, k, x))
  {
    var u := CancelGrace(s, x);
    var n := Dismiss(u, t, k, x);
    if u.sess[x].ws.Some? {
      assert Cares(n.tasks[t], n.sess[x], x);
    } else {
      TermTouches(u, t, k, x, false);
      TermBeginsCares(u, t, k, x, false);
    }
    AfterCancelGrace(s, t, x, n);
  }

  lemma DismissKeepsCare(s: State, t: Tid, k: Key, x: Sid)
    requires AllCaredFor(s) && x < |s.sess| && ConcernsOnly(s, t, x)
    requires s.sess[x].ws.Some? ==> !s.sess[x].terminating
    ensures AllCaredFor(Dismiss(s, t, k, x))
  {
    if s.sess[x].ws.Some? {
      TakesOffKeepsCare(s, t, x, Farewell(k, x, Queued));
    } else {
      TermBeginsKeepsCare(s, t, k, x, false);
    }
  }

  lemma PrunedKeepsCare(s: State, k: Key)
    requires AllCaredFor(s) && (k in s.reg ==> s.reg[k] < |s.sess|)
    ensures AllCaredFor(Pruned(s, k))
  {
    var n := Pruned(s, k);
    forall x | 0 <= x < |n.sess| ensures CaredFor(n, x) {
      assert CaredFor(s, x);
    }
  }

  lemma SpawnedKeepsCare(s: State, t: Tid, k: Key)
    requires AllCaredFor(s) && t < |s.tasks| && About(s.tasks[t]).None?
    ensures AllCaredFor(Spawned(s, t, k))
  {
    var n := |s.sess|;
    SpawnedTouches(s, t, k, n);
    Together(s, Spawned(s, t, k), n);
  }

  lemma StartKeepsCare(s: State, t: Tid, k: Key)
    requires Inv(s) && AllCaredFor(s) && t < |s.tasks| && About(s.tasks[t]).None? && !s.tasks[t].Sleeps?
    ensures AllCaredFor(StartLocked(s, t, k))
  {
    PrunedKeepsCare(s, k);
    var p := Pruned(s, k);
    match Found(p, k) {
      case None => SpawnedKeepsCare(p, t, k);
      case Some(x) => ReplacesKeepsCare(p, t, k, x);
    }
  }

  /** An expired countdown gives up only if somebody else cares. */
  lemma GraceKeepsCare(s: State, t: Tid, k: Key, x: Sid)
    requires Inv(s) && AllCaredFor(s) && t < |s.tasks| && s.tasks[t] == Holds(k, Grace(x))
    requires x < |s.sess| && s.sess[x].key == k
    ensures AllCaredFor(GraceExpires(s, t, k, x))
  {
    if !IsRegistered(s, k, x) || s.sess[x].ws.Some? || !s.sess[x].alive {
      GivingUpCares(s, t, k, x);
    } else {
      TermBeginsKeepsCare(s, t, k, x, false);
    }
  }

  lemma GivingUpCares(s: State, t: Tid, k: Key, x: Sid)
    requires AllCaredFor(s) && Owned(s.sess, s.reg) && t < |s.tasks| && s.tasks[t] == Holds(k, Grace(x))
    requires x < |s.sess| && s.sess[x].key == k
    requires !IsRegistered(s, k, x) || s.sess[x].ws.Some? || !s.sess[x].alive
    ensures AllCaredFor(Leave(s, t, k, Done))
  {
    var n := Leave(s, t, k, Done);
    if n.sess[x].alive && n.sess[x].ws.None? {
      assert s.sess[x].terminating;
      assert CaredFor(s, x);
      var u :| 0 <= u < |s.tasks| && Cares(s.tasks[u], s.sess[x], x);
      assert Cares(n.tasks[u], n.sess[x], x);
    }
    Together(s, n, x);
  }

  lemma JobKeepsCare(s: State, t: Tid, k: Key, job: Job, c: Choice)
    requires Inv(s) && AllCaredFor(s) && t < |s.tasks| && s.tasks[t] == Holds(k, job)
    requires Refers(s.sess, s.tasks[t])
    ensures AllCaredFor(JobHeld(s, t, k, job, c))
  {
    PrunedKeepsCare(s, k);
    PrunedKeeps(s, k);
    var p := Pruned(s, k);
    match job
    case Serve(afresh) =>
      if Found(p, k).Some? && !afresh {
        AttachKeepsCare(p, t, k, Found(p, k).value, c.replay);
      } else if !afresh && c.history {
        MovingOnCares(p, Go(p, t, LooksUp(k)), t);
      } else {
        StartKeepsCare(p, t, k);
      }
    case End =>
      if Found(p, k).Some? {
        EndKeepsCare(p, t, k, Found(p, k).value);
      } else {
        MovingOnCares(p, Leave(p, t, k, Done), t);
      }
    case Grace(x) => GraceKeepsCare(s, t, k, x);
    case Idle(x) =>
      if !IsRegistered(s, k, x) || !s.sess[x].alive {
        MovingOnCares(s, Leave(s, t, k, Done), t);
      } else {
        DismissKeepsCare(s, t, k, x);
      }
  }

  lemma DetachKeepsCare(s: State, t: Tid, x: Sid)
    requires Inv(s) && AllCaredFor(s) && t < |s.tasks| && s.tasks[t] == Open(x) && x < |s.sess|
    ensures AllCaredFor(Detaches(s, t, x))
  {
    if s.sess[x].ws != Some(t) {
      MovingOnCares(s, Go(s, t, Done), t);
    } else {
      TakesOffKeepsCare(s, t, x, Detaching(x));
    }
  }

  lemma DetachedKeepsCare(s: State, t: Tid, x: Sid)
    requires AllCaredFor(s) && t < |s.tasks| && s.tasks[t] == Detaching(x) && x < |s.sess|
    ensures AllCaredFor(Detached(s, t, x))
  {
    var n := Detached(s, t, x);
    if n.sess[x].alive && n.sess[x].ws.None? {
      assert CaredFor(s, x);
      var u :| 0 <= u < |s.tasks| && Cares(s.tasks[u], s.sess[x], x);
      assert n.tasks[|s.tasks|] == Sleeps(Grace(x));
      assert Cares(n.tasks[if n.sess[x].terminating then u else |s.tasks|], n.sess[x], x);
    }
    Together(s, n, x);
  }

  lemma ErrandKeepsCare(s: State, t: Tid, c: Choice)
    requires Inv(s) && AllCaredFor(s) && t < |s.tasks| && Refers(s.sess, s.tasks[t])
    requires s.tasks[t].Reattaching? || s.tasks[t].Replacing? || s.tasks[t].Farewell?
    ensures AllCaredFor(AfterProceed(s, t, c))
  {
    var pc := s.tasks[t];
    if pc.stage.Stopping? || (pc.Farewell? && pc.stage.Queued? && c.late) {
      MovingOnCares(s, AfterProceed(s, t, c), t);
    } else if pc.Reattaching? {
      InstallsKeepsCare(s, t, pc.key, pc.x, c.replay);
    } else {
      TermBeginsKeepsCare(s, t, pc.key, pc.x, pc.Replacing?);
    }
  }

  lemma ProceedKeepsCare(s: State, t: Tid, c: Choice)
    requires Inv(s) && AllCaredFor(s) && Enabled(s, Proceeds(t, c))
    ensures AllCaredFor(AfterProceed(s, t, c))
  {
    assert TaskOk(s.sess, s.reg, s.tasks[t]);
    var n := AfterProceed(s, t, c);
    match s.tasks[t]
    case Sleeps(job) => MovingOnCares(s, n, t);
    case Waits(k, job) => MovingOnCares(s, n, t);
    case Holds(k, job) => JobKeepsCare(s, t, k, job, c);
    case LooksUp(k) =>
      if c.fails {
        MovingOnCares(s, n, t);
      } else {
        StartKeepsCare(s, t, k);
      }
    case Reattaching(k, x, _) => ErrandKeepsCare(s, t, c);
    case Replaying(k, x) => MovingOnCares(s, n, t);
    case Replacing(k, x, _) => ErrandKeepsCare(s, t, c);
    case Farewell(k, x, _) => ErrandKeepsCare(s, t, c);
    case Terminating(k, x, starts) => TermEndsKeepsCare(s, t, k, x, starts);
    case Unwinding(k) => MovingOnCares(s, n, t);
    case Open(x) => DetachKeepsCare(s, t, x);
    case Detaching(x) => DetachedKeepsCare(s, t, x);
  }

  lemma ArrivalKeepsCare(s: State, pc: Pc)
    requires AllCaredFor(s)
    ensures AllCaredFor(s.(tasks := s.tasks + [pc]))
  {
    var n := s.(tasks := s.tasks + [pc]);
    forall x | 0 <= x < |n.sess| ensures CaredFor(n, x) {
      if n.sess[x].alive && n.sess[x].ws.None? {
        assert CaredFor(s, x);
        var t :| 0 <= t < |s.tasks| && Cares(s.tasks[t], s.sess[x], x);
        assert Cares(n.tasks[t], n.sess[x], x);
      }
    }
  }

  lemma ExitKeepsCare(s: State, x: Sid)
    requires AllCaredFor(s) && x < |s.sess|
    ensures AllCaredFor(AfterExit(s, x))
  {
    if s.sess[x].alive {
      Together(s, AfterExit(s, x), x);
    }
  }

  // ---- Cancellation -------------------------------------------------------------------------------

  /** A cancellation ends the task while it is busy with a session: a grace countdown, an attach or
      a replacement that is not just stopping a writer, a farewell, a termination. */
  predicate Losable(pc: Pc) {
    || ((pc.Sleeps? || pc.Waits?) && pc.job.Grace?)
    || pc.Replaying? || pc.Terminating?
    || ((pc.Reattaching? || pc.Replacing? || pc.Farewell?) && !pc.stage.Stopping?)
  }

  /** It would leave the living session x without a socket. */
  predicate Exposes(s: State, t: Tid, x: Sid) {
    && t < |s.tasks| && Losable(s.tasks[t]) && About(s.tasks[t]) == Some(x)
    && x < |s.sess| && s.sess[x].alive && (s.sess[x].ws.None? || s.sess[x].ws == Some(t))
  }

  /** A detach that will arm a countdown, or a countdown that has not expired. */
  predicate Pending(pc: Pc, x: Sid) {
    pc == Detaching(x) || ((pc.Sleeps? || pc.Waits? || pc.Holds?) && pc.job == Grace(x))
  }

  predicate Occupied(pc: Pc, x: Sid) {
    (pc.Reattaching? || pc.Replacing? || pc.Farewell? || pc.Terminating?) && pc.x == x
  }

  /** Another detach or countdown of the session is pending, or another task holds the key's lock
      and is busy with the session. */
  ghost predicate Covered(s: State, t: Tid, x: Sid)
    requires x < |s.sess|
  {
    var k := s.sess[x].key;
    || (!s.sess[x].terminating && exists u :: 0 <= u < |s.tasks| && u != t && Pending(s.tasks[u], x))
    || (k in s.lock && s.lock[k] != t && s.lock[k] < |s.tasks| && Occupied(s.tasks[s.lock[k]], x))
  }

  ghost predicate CancelIsSafe(s: State, t: Tid) {
    forall x :: Exposes(s, t, x) ==> Covered(s, t, x)
  }

  lemma CarerCovers(s: State, t: Tid, x: Sid, u: Tid)
    requires Inv(s) && x < |s.sess| && u < |s.tasks| && u != t && Cares(s.tasks[u], s.sess[x], x)
    ensures Covered(s, t, x)
  {
    assert TaskOk(s.sess, s.reg, s.tasks[u]);
    if !Pending(s.tasks[u], x) {
      assert Held(s.tasks[u]) == Some(s.sess[x].key);
    }
  }

  lemma CoverCares(s: State, t: Tid, x: Sid) returns (u: Tid)
    requires Inv(s) && x < |s.sess| && Covered(s, t, x)
    ensures u < |s.tasks| && u != t && Cares(s.tasks[u], s.sess[x], x)
  {
    var k := s.sess[x].key;
    if k in s.lock && s.lock[k] != t && Occupied(s.tasks[s.lock[k]], x) {
      u := s.lock[k];
      assert TaskOk(s.sess, s.reg, s.tasks[u]);
    } else {
      u :| 0 <= u < |s.tasks| && u != t && Pending(s.tasks[u], x);
    }
  }

  /** What losing a task does. */
  lemma LosesOne(s: State, t: Tid, x: Sid)
    requires Inv(s) && Enabled(s, Cancelled(t)) && Losable(s.tasks[t]) && About(s.tasks[t]) == Some(x)
    ensures x < |s.sess|
    ensures var n := AfterCancel(s, t);
            && n.tasks == s.tasks[t := n.tasks[t]] && (n.tasks[t].Done? || n.tasks[t].Unwinding?)
            && n.sess == s.sess[x := s.sess[x].(ws := if s.sess[x].ws == Some(t) then None else s.sess[x].ws)]
  {
    assert TaskOk(s.sess, s.reg, s.tasks[t]);
    if s.sess[x].ws == Some(t) {
      assert Attached(s.tasks[t], x);
    }
  }

  /** Cancelling such a task forgets the session exactly if it is not covered. */
  lemma ForgetsUnlessCovered(s: State, t: Tid, x: Sid)
    requires Inv(s) && Enabled(s, Cancelled(t)) && Exposes(s, t, x)
    ensures x < |AfterCancel(s, t).sess|
    ensures CaredFor(AfterCancel(s, t), x) <==> Covered(s, t, x)
  {
    LosesOne(s, t, x);
    var n := AfterCancel(s, t);
    if CaredFor(n, x) {
      var u :| 0 <= u < |n.tasks| && Cares(n.tasks[u], n.sess[x], x);
      assert u != t && Cares(s.tasks[u], s.sess[x], x);
      CarerCovers(s, t, x, u);
    }
    if Covered(s, t, x) {
      var u := CoverCares(s, t, x);
      assert Cares(n.tasks[u], n.sess[x], x);
    }
  }

  /** Other sessions do not depend on the lost task. */
  lemma LosingSparesOthers(s: State, t: Tid, x: Sid)
    requires Inv(s) && AllCaredFor(s) && Enabled(s, Cancelled(t)) && Losable(s.tasks[t])
    requires About(s.tasks[t]) == Some(x)
    ensures AllCaredFor(AfterCancel(s, t)) <==> CancelIsSafe(s, t)
  {
    LosesOne(s, t, x);
    var n := AfterCancel(s, t);
    assert OnlyTouches(s, n, x);
    assert forall y :: Exposes(s, t, y) ==> y == x;
    if Exposes(s, t, x) {
      ForgetsUnlessCovered(s, t, x);
    }
    if CaredFor(n, x) {
      Together(s, n, x);
    }
  }

  lemma SafeCancelKeepsCare(s: State, t: Tid)
    requires Inv(s) && AllCaredFor(s) && Enabled(s, Cancelled(t)) && !Losable(s.tasks[t])
    ensures AllCaredFor(AfterCancel(s, t))
  {
    assert TaskOk(s.sess, s.reg, s.tasks[t]);
    if s.tasks[t].Open? {
      DetachKeepsCare(s, t, s.tasks[t].x);
    } else if s.tasks[t].Detaching? {
      DetachedKeepsCare(s, t, s.tasks[t].x);
    } else {
      MovingOnCares(s, AfterCancel(s, t), t);
    }
  }

  lemma CancelCares(s: State, t: Tid)
    requires Inv(s) && AllCaredFor(s) && Enabled(s, Cancelled(t))
    ensures AllCaredFor(AfterCancel(s, t)) <==> CancelIsSafe(s, t)
  {
    if Losable(s.tasks[t]) {
      LosingSparesOthers(s, t, About(s.tasks[t]).value);
    } else {
      SafeCancelKeepsCare(s, t);
    }
  }

  // ---- Runs ---------------------------------------------------------------------------------------

  /** No cancellation of the run hits the last task that is busy with a living session. */
  ghost predicate Calm(s: State, steps: seq<Step>)
    decreases |steps|
  {
    steps == [] ||
    (&& Enabled(s, steps[0])
     && (steps[0].Cancelled? ==> CancelIsSafe(s, steps[0].t))
     && Calm(Next(s, steps[0]), steps[1..]))
  }

  ghost predicate AlwaysCaredFor(s: State, steps: seq<Step>)
    decreases |steps|
  {
    AllCaredFor(s) && (steps == [] || (Enabled(s, steps[0]) && AlwaysCaredFor(Next(s, steps[0]), steps[1..])))
  }

  lemma StepCares(s: State, step: Step)
    requires Inv(s) && AllCaredFor(s) && Enabled(s, step)
    ensures AllCaredFor(Next(s, step)) <==> (step.Cancelled? ==> CancelIsSafe(s, step.t))
  {
    match step
    case Connects(k, afresh) => ArrivalKeepsCare(s, Waits(k, Serve(afresh)));
    case Asks(k) => ArrivalKeepsCare(s, Waits(k, End));
    case Proceeds(t, c) => ProceedKeepsCare(s, t, c);
    case Cancelled(t) => CancelCares(s, t);
    case Exits(x) => ExitKeepsCare(s, x);
    case Peeks(k) => PrunedKeepsCare(s, k);
  }

  lemma {:induction false} CaredForFrom(s: State, steps: seq<Step>, t: State)
    requires Inv(s) && AllCaredFor(s) && Run(s, steps, t)
    ensures AlwaysCaredFor(s, steps) <==> Calm(s, steps)
    ensures Calm(s, steps) ==> AllCaredFor(t)
    decreases |steps|
  {
    if steps != [] {
      StepCares(s, steps[0]);
      StepKeepsInv(s, steps[0]);
      if AllCaredFor(Next(s, steps[0])) {
        CaredForFrom(Next(s, steps[0]), steps[1..], t);
      }
    }
  }

  /** In every run, at every moment each living session without a socket has a task that minds it,
      and each terminating one a task that ends it, exactly if the run is calm. */
  lemma CareExactly(steps: seq<Step>, t: State)
    requires Run(START, steps, t)
    ensures AlwaysCaredFor(START, steps) <==> Calm(START, steps)
  {
    CaredForFrom(START, steps, t);
  }

  /** In a calm run a living session without a socket has a task that will arm or expire its grace
      countdown, attach a socket or end it, and that task can run unless it waits for its key's
      lock; a session that is terminating is still being ended. */
  lemma NobodyIsForgotten(steps: seq<Step>, t: State, x: Sid) returns (u: Tid)
    requires Run(START, steps, t) && Calm(START, steps)
    requires x < |t.sess| && t.sess[x].alive && t.sess[x].ws.None?
    ensures u < |t.tasks| && About(t.tasks[u]) == Some(x)
    ensures if t.sess[x].terminating then IsEnding(t.tasks[u], x) else Minds(t.tasks[u], x)
    ensures forall c :: Enabled(t, Proceeds(u, c)) || (t.tasks[u].Waits? && t.sess[x].key in t.lock)
  {
    CaredForFrom(START, steps, t);
    RunKeepsInv(START, steps, t);
    assert CaredFor(t, x);
    u :| 0 <= u < |t.tasks| && Cares(t.tasks[u], t.sess[x], x);
    assert Refers(t.sess, t.tasks[u]);
  }

  // ---- The proviso is needed ------------------------------------------------------------------------

  const QUIET := Choice(false, false, false, false)
  const REPLAY := Choice(false, true, false, false)

  /** A served session; a second route about to replace the first one's socket; the same with the
      replay under way; and after that route was cancelled. */
  const SERVED := State([Sess(0, true, false, Some(0), None)], map[0 := 0], map[], [Open(0), Sleeps(Idle(0))])
  const SECOND := State([Sess(0, true, false, None, None)], map[0 := 0], map[0 := 2],
                        [Open(0), Sleeps(Idle(0)), Reattaching(0, 0, Stopping)])
  const REPLAYED := State([Sess(0, true, false, Some(2), None)], map[0 := 0], map[0 := 2],
                          [Open(0), Sleeps(Idle(0)), Replaying(0, 0)])
  const FORGOTTEN := State([Sess(0, true, false, None, None)], map[0 := 0], map[],
                           [Open(0), Sleeps(Idle(0)), Done])

  lemma {:induction false} Extends(s: State, steps: seq<Step>, m: State, step: Step)
    requires Run(s, steps, m) && Enabled(m, step)
    ensures Run(s, steps + [step], Next(m, step))
    decreases |steps|
  {
    if steps == [] {
      assert [step][1..] == [];
      assert Run(Next(m, step), [], Next(m, step));
    } else {
      Extends(Next(s, steps[0]), steps[1..], m, step);
      assert (steps + [step])[1..] == steps[1..] + [step];
    }
  }

  lemma FirstRoute() returns (steps: seq<Step>)
    ensures Run(START, steps, SERVED)
  {
    var a := Next(START, Connects(0, true));
    assert a.tasks == [Waits(0, Serve(true))];
    Extends(START, [], START, Connects(0, true));
    var b := Next(a, Proceeds(0, QUIET));
    assert b.tasks == [Holds(0, Serve(true))] && b.lock == map[0 := 0];
    Extends(START, [Connects(0, true)], a, Proceeds(0, QUIET));
    steps := [Connects(0, true)] + [Proceeds(0, QUIET)];
    Extends(START, steps, b, Proceeds(0, QUIET));
    steps := steps + [Proceeds(0, QUIET)];
    assert Next(b, Proceeds(0, QUIET)) == SERVED;
  }

  lemma SecondRoute() returns (steps: seq<Step>)
    ensures Run(START, steps, SECOND)
  {
    steps := FirstRoute();
    var a := Next(SERVED, Connects(0, false));
    assert a.tasks == [Open(0), Sleeps(Idle(0)), Waits(0, Serve(false))];
    Extends(START, steps, SERVED, Connects(0, false));
    steps := steps + [Connects(0, false)];
    var b := Next(a, Proceeds(2, QUIET));
    assert b.tasks == [Open(0), Sleeps(Idle(0)), Holds(0, Serve(false))] && b.lock == map[0 := 2];
    Extends(START, steps, a, Proceeds(2, QUIET));
    steps := steps + [Proceeds(2, QUIET)];
    Extends(START, steps, b, Proceeds(2, REPLAY));
    steps := steps + [Proceeds(2, REPLAY)];
    assert Next(b, Proceeds(2, REPLAY)) == SECOND;
  }

  const UNWOUND := FORGOTTEN.(lock := map[0 := 2], tasks := [Open(0), Sleeps(Idle(0)), Unwinding(0)])

  const STOPPED := SECOND.(tasks := [Open(0), Sleeps(Idle(0)), Reattaching(0, 0, Closing)])

  lemma StoppedRoute() returns (steps: seq<Step>)
    ensures Run(START, steps, STOPPED)
  {
    steps := SecondRoute();
    assert Next(SECOND, Proceeds(2, QUIET)) == STOPPED;
    Extends(START, steps, SECOND, Proceeds(2, QUIET));
    steps := steps + [Proceeds(2, QUIET)];
  }

  lemma ReplayedRoute() returns (steps: seq<Step>)
    ensures Run(START, steps, REPLAYED)
  {
    steps := StoppedRoute();
    assert Next(STOPPED, Proceeds(2, REPLAY)) == REPLAYED;
    Extends(START, steps, STOPPED, Proceeds(2, REPLAY));
    steps := steps + [Proceeds(2, REPLAY)];
  }

  lemma CancelledRoute() returns (steps: seq<Step>)
    ensures Run(START, steps, UNWOUND)
  {
    steps := ReplayedRoute();
    assert Next(REPLAYED, Cancelled(2)) == UNWOUND;
    Extends(START, steps, REPLAYED, Cancelled(2));
    steps := steps + [Cancelled(2)];
  }

  lemma NobodyCares()
    ensures FORGOTTEN.sess[0].alive && !CaredFor(FORGOTTEN, 0)
  {
    forall t | 0 <= t < 3 ensures !Minds(FORGOTTEN.tasks[t], 0) {
      assert t == 0 || t == 1 || t == 2;
    }
  }

  /** A route that is cancelled while it waits for the replay lets go of its socket, and the first
      route, whose socket it replaced, will not arm a countdown either: the session lives on with
      nobody to see to it but its idle countdown. */
  lemma CancelledAttachForgets() returns (steps: seq<Step>)
    ensures Run(START, steps, FORGOTTEN)
    ensures FORGOTTEN.sess[0].alive && !CaredFor(FORGOTTEN, 0)
    ensures Next(FORGOTTEN, Proceeds(0, QUIET)).tasks[0] == Done
  {
    steps := CancelledRoute();
    assert Next(UNWOUND, Proceeds(2, QUIET)) == FORGOTTEN;
    Extends(START, steps, UNWOUND, Proceeds(2, QUIET));
    steps := steps + [Proceeds(2, QUIET)];
    NobodyCares();
  }
}
