/** `SessionManager` as the object it is: one map of sessions, one of locks, and methods that
    change them between two awaits. Each method does what `Lifecycle` says and keeps its
    invariant. Sessions and tasks are numbered in the order they are made. */
module SessionManager {
  import opened Common
  import opened Lifecycle

  class Manager {
    var sess: seq<Sess>
    var sessions: map<Key, Sid>
    var locks: map<Key, Tid>
    var tasks: seq<Pc>

    ghost function Snapshot(): State
      reads this
    {
      State(sess, sessions, locks, tasks)
    }

    ghost predicate Valid()
      reads this
    {
      Inv(Snapshot())
    }

    constructor ()
      ensures Snapshot() == START && Valid()
    {
      sess, sessions, locks, tasks := [], map[], map[], [];
    }

    /** With or without the lock; the answer is the one live session of the key, if it has one. */
    method GetLive(k: Key) returns (found: Option<Sid>)
      requires Valid()
      modifies `sessions
      ensures Snapshot() == Pruned(old(Snapshot()), k) && Valid()
      ensures found == Found(Snapshot(), k)
      ensures found.None? <==> forall x :: 0 <= x < |sess| && sess[x].key == k ==> !Live(sess[x])
    {
      PrunedKeeps(Snapshot(), k);
      if k !in sessions {
        return None;
      }
      var x := sessions[k];
      if !sess[x].alive {
        sessions := sessions - {k};
        return None;
      }
      if sess[x].terminating {
        return None;
      }
      return Some(x);
    }

    method CancelGrace(x: Sid)
      requires x < |sess|
      modifies `sess, `tasks
      ensures Snapshot() == Lifecycle.CancelGrace(old(Snapshot()), x)
    {
      if sess[x].grace.Some? {
        var g := sess[x].grace.value;
        sess := sess[x := sess[x].(grace := None)];
        if g < |tasks| && tasks[g] == Sleeps(Grace(x)) {
          tasks := tasks[g := Done];
        }
      }
    }

    method Spawn(t: Tid, k: Key)
      requires t < |tasks|
      modifies this
      ensures Snapshot() == Spawned(old(Snapshot()), t, k)
    {
      var n := |sess|;
      sess := sess + [Sess(k, true, false, Some(t), None)];
      sessions := sessions[k := n];
      tasks := tasks[t := Open(n)] + [Sleeps(Idle(n))];
      locks := locks - {k};
    }

    method FinishTerminate(t: Tid, k: Key, x: Sid, starts: bool)
      requires t < |tasks| && x < |sess|
      modifies this
      ensures Snapshot() == TermEnds(old(Snapshot()), t, k, x, starts)
    {
      sess := sess[x := sess[x].(alive := false)];
      if k in sessions && sessions[k] == x {
        sessions := sessions - {k};
      }
      if starts {
        Spawn(t, k);
      } else {
        locks := locks - {k};
        tasks := tasks[t := Done];
      }
    }

    method BeginTerminate(t: Tid, k: Key, x: Sid, starts: bool)
      requires t < |tasks| && x < |sess|
      modifies this
      ensures Snapshot() == TermBegins(old(Snapshot()), t, k, x, starts)
    {
      if !sess[x].alive {
        FinishTerminate(t, k, x, starts);
        return;
      }
      sess := sess[x := sess[x].(terminating := true)];
      tasks := tasks[t := Terminating(k, x, starts)];
    }

    method ReplaceSession(t: Tid, k: Key, x: Sid)
      requires t < |tasks| && x < |sess|
      modifies this
      ensures Snapshot() == Replaces(old(Snapshot()), t, k, x)
    {
      CancelGrace(x);
      if sess[x].ws.Some? {
        sess := sess[x := sess[x].(ws := None)];
        tasks := tasks[t := Replacing(k, x, Stopping)];
      } else {
        BeginTerminate(t, k, x, true);
      }
    }

    method StartSession(t: Tid, k: Key)
      requires Valid() && Has(Snapshot(), t, k) && !tasks[t].Replaying?
      modifies this
      ensures Snapshot() == StartLocked(old(Snapshot()), t, k) && Valid()
    {
      StartKeeps(Snapshot(), t, k);
      var existing := GetLive(k);
      if existing.None? {
        Spawn(t, k);
      } else {
        ReplaceSession(t, k, existing.value);
      }
    }

    /** `_notify_and_terminate`. */
    method NotifyAndTerminate(t: Tid, k: Key, x: Sid)
      requires Valid() && Has(Snapshot(), t, k) && !tasks[t].Replaying? && x < |sess| && sess[x].key == k
      modifies this
      ensures Snapshot() == Dismiss(old(Snapshot()), t, k, x) && Valid()
    {
      DismissKeeps(Snapshot(), t, k, x);
      if sess[x].ws.Some? {
        sess := sess[x := sess[x].(ws := None)];
        tasks := tasks[t := Farewell(k, x, Queued)];
      } else {
        BeginTerminate(t, k, x, false);
      }
    }

    /** `end` up to its first await; `ended` is what it returns, at once or after the termination:
        whether there was a live session to end. */
    method EndSession(t: Tid, k: Key) returns (ended: bool)
      requires Valid() && t < |tasks| && tasks[t] == Holds(k, End)
      modifies this
      ensures Snapshot() == Ends(old(Snapshot()), t, k) && Valid()
      ensures ended <==> exists x :: 0 <= x < |old(sess)| && old(sess)[x].key == k && Live(old(sess)[x])
      ensures !ended ==> sess == old(sess) && locks == old(locks) - {k} && tasks == old(tasks)[t := Done]
    {
      JobKeeps(Snapshot(), t, k, End, Choice(false, false, false, false));
      var live := GetLive(k);
      if live.None? {
        locks := locks - {k};
        tasks := tasks[t := Done];
      } else {
        CancelGraceKeeps(Snapshot(), live.value);
        CancelGrace(live.value);
        NotifyAndTerminate(t, k, live.value);
      }
      ended := live.Some?;
    }

    method ExpireGrace(t: Tid, k: Key, x: Sid)
      requires Valid() && t < |tasks| && tasks[t] == Holds(k, Grace(x)) && x < |sess|
      modifies this
      ensures Snapshot() == GraceExpires(old(Snapshot()), t, k, x) && Valid()
    {
      JobKeeps(Snapshot(), t, k, Grace(x), Choice(false, false, false, false));
      if !(k in sessions && sessions[k] == x) || sess[x].ws.Some? || !sess[x].alive {
        locks := locks - {k};
        tasks := tasks[t := Done];
        return;
      }
      BeginTerminate(t, k, x, false);
    }

    method ExpireIdle(t: Tid, k: Key, x: Sid)
      requires Valid() && t < |tasks| && tasks[t] == Holds(k, Idle(x)) && x < |sess| && sess[x].key == k
      modifies this
      ensures Snapshot() == IdleExpires(old(Snapshot()), t, k, x) && Valid()
    {
      JobKeeps(Snapshot(), t, k, Idle(x), Choice(false, false, false, false));
      if !(k in sessions && sessions[k] == x) || !sess[x].alive {
        locks := locks - {k};
        tasks := tasks[t := Done];
        return;
      }
      NotifyAndTerminate(t, k, x);
    }

    /** `attach` up to its first await. */
    method BeginAttach(t: Tid, k: Key, x: Sid, replay: bool)
      requires Valid() && Has(Snapshot(), t, k) && !tasks[t].Replaying?
      requires x < |sess| && sess[x].key == k && !sess[x].terminating
      modifies this
      ensures Snapshot() == AttachBegins(old(Snapshot()), t, k, x, replay) && Valid()
    {
      AttachKeeps(Snapshot(), t, k, x, replay);
      CancelGrace(x);
      if sess[x].ws.Some? {
        sess := sess[x := sess[x].(ws := None)];
        tasks := tasks[t := Reattaching(k, x, Stopping)];
      } else {
        sess := sess[x := sess[x].(ws := Some(t))];
        if replay {
          tasks := tasks[t := Replaying(k, x)];
        } else {
          locks := locks - {k};
          tasks := tasks[t := Open(x)];
        }
      }
    }

    /** The route, from the moment it has the lock to its first await. */
    method ServeTerminal(t: Tid, k: Key, afresh: bool, c: Choice)
      requires Valid() && t < |tasks| && tasks[t] == Holds(k, Serve(afresh))
      modifies this
      ensures Snapshot() == Serves(old(Snapshot()), t, k, afresh, c) && Valid()
    {
      JobKeeps(Snapshot(), t, k, Serve(afresh), c);
      PrunedKeeps(Snapshot(), k);
      var live := GetLive(k);
      if live.Some? && !afresh {
        BeginAttach(t, k, live.value, c.replay);
      } else if !afresh && c.history {
        tasks := tasks[t := LooksUp(k)];
      } else {
        StartSession(t, k);
      }
    }

    /** `detach` up to its first await. */
    method Detach(t: Tid, x: Sid)
      requires Valid() && t < |tasks| && tasks[t] == Open(x) && x < |sess|
      modifies this
      ensures Snapshot() == Detaches(old(Snapshot()), t, x) && Valid()
    {
      DetachesKeeps(Snapshot(), t, x);
      if sess[x].ws != Some(t) {
        tasks := tasks[t := Done];
      } else {
        sess := sess[x := sess[x].(ws := None)];
        tasks := tasks[t := Detaching(x)];
      }
    }

    /** The rest of `detach`. */
    method FinishDetach(t: Tid, x: Sid)
      requires Valid() && t < |tasks| && tasks[t] == Detaching(x) && x < |sess|
      modifies this
      ensures Snapshot() == Detached(old(Snapshot()), t, x) && Valid()
    {
      DetachedKeeps(Snapshot(), t, x);
      tasks := tasks[t := Done];
      if sess[x].alive {
        sess := sess[x := sess[x].(grace := Some(|tasks|))];
        tasks := tasks + [Sleeps(Grace(x))];
      }
    }

    /** A countdown's sleep is over. */
    method FinishSleep(t: Tid, job: Job)
      requires Valid() && t < |tasks| && tasks[t] == Sleeps(job) && Refers(sess, tasks[t])
      modifies this
      ensures Snapshot() == Fires(old(Snapshot()), t, job) && Valid()
    {
      FiresKeeps(Snapshot(), t, job);
      if job.Grace? {
        sess := sess[job.x := sess[job.x].(grace := None)];
      }
      tasks := tasks[t := Waits(sess[job.x].key, job)];
    }
  }
}
