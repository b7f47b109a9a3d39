/** Session ownership: `SessionManager` and the locked part of the terminal route, with any
    number of keys, sessions and tasks. A step is what one task runs between two awaits, a
    child's exit, or an unlocked look at the map. A countdown may fire at any time, a lock may
    go to any waiter, and a task may be cancelled at any await.
    `SessionManager.shutdown` takes no lock and is not part of this model. */
module Lifecycle {
  import opened Common

  type Key = nat
  type Sid = nat
  type Tid = nat

  /** A spawned session; a socket is identified with the route task that serves it. */
  datatype Sess = Sess(key: Key, alive: bool, terminating: bool, ws: Option<Tid>, grace: Option<Tid>)

  predicate Live(x: Sess) {
    x.alive && !x.terminating
  }

  /** Why a task wants the key's lock. */
  datatype Job =
    | Serve(afresh: bool)   // a terminal route; `afresh` is mode "new"
    | End
    | Grace(x: Sid)        // an expired grace countdown of x
    | Idle(x: Sid)         // an expired idle countdown of x

  /** How far a socket has been seen off: its close is queued, its writer is being stopped, or it
      is being closed directly. `_stop_outbound_writer` suppresses a cancellation. */
  datatype Stage = Queued | Stopping | Closing

  /** Where a task waits. */
  datatype Pc =
    | Sleeps(job: Job)                                // a countdown
    | Waits(key: Key, job: Job)                       // for the lock
    | Holds(key: Key, job: Job)                       // just got it
    | LooksUp(key: Key)                               // route: asks for the session history
    | Reattaching(key: Key, x: Sid, stage: Stage)     // attach: sees the previous socket off
    | Replaying(key: Key, x: Sid)                     // attach: waits for the replay
    | Replacing(key: Key, x: Sid, stage: Stage)       // start_locked: sees the old session's socket off
    | Farewell(key: Key, x: Sid, stage: Stage)        // end or idle: tells the socket why
    | Terminating(key: Key, x: Sid, starts: bool)     // terminate; then start a new session or return
    | Unwinding(key: Key)                             // route: fails, still inside the lock
    | Open(x: Sid)                                    // route: receives messages
    | Detaching(x: Sid)                               // detach: stops the writer
    | Done

  /** The lock a task holds. */
  function Held(pc: Pc): Option<Key> {
    match pc
    case Holds(k, _) => Some(k)
    case LooksUp(k) => Some(k)
    case Reattaching(k, _, _) => Some(k)
    case Replaying(k, _) => Some(k)
    case Replacing(k, _, _) => Some(k)
    case Farewell(k, _, _) => Some(k)
    case Terminating(k, _, _) => Some(k)
    case Unwinding(k) => Some(k)
    case _ => None
  }

  datatype State = State(
    sess: seq<Sess>,
    reg: map<Key, Sid>,      // SessionManager.sessions
    lock: map<Key, Tid>,     // the holder of each lock that is taken
    tasks: seq<Pc>)

  const START := State([], map[], map[], [])

  // ---- Small operations ----------------------------------------------------------------------

  function Go(s: State, t: Tid, pc: Pc): State
    requires t < |s.tasks|
  {
    s.(tasks := s.tasks[t := pc])
  }

  function Leave(s: State, t: Tid, k: Key, pc: Pc): State
    requires t < |s.tasks|
  {
    Go(s.(lock := s.lock - {k}), t, pc)
  }

  function SetWs(s: State, x: Sid, ws: Option<Tid>): State
    requires x < |s.sess|
  {
    s.(sess := s.sess[x := s.sess[x].(ws := ws)])
  }

  function SetGrace(s: State, x: Sid, grace: Option<Tid>): State
    requires x < |s.sess|
  {
    s.(sess := s.sess[x := s.sess[x].(grace := grace)])
  }

  /** `cancel_grace`: a countdown that still sleeps is over. */
  function CancelGrace(s: State, x: Sid): State
    requires x < |s.sess|
  {
    match s.sess[x].grace
    case None => s
    case Some(g) =>
      var u := SetGrace(s, x, None);
      if g < |s.tasks| && s.tasks[g] == Sleeps(Grace(x)) then Go(u, g, Done) else u
  }

  function Die(s: State, x: Sid): State
    requires x < |s.sess|
  {
    s.(sess := s.sess[x := s.sess[x].(alive := false)])
  }

  /** `if self.sessions.get(key) is x: del self.sessions[key]` */
  function Unregistered(s: State, k: Key, x: Sid): State {
    if k in s.reg && s.reg[k] == x then s.(reg := s.reg - {k}) else s
  }

  ghost predicate RegOk(sess: seq<Sess>, reg: map<Key, Sid>) {
    forall k :: k in reg ==> reg[k] < |sess| && sess[reg[k]].key == k
  }

  /** `get_live`: forget a dead entry, and answer with a live one. */
  function Pruned(s: State, k: Key): State
    requires k in s.reg ==> s.reg[k] < |s.sess|
  {
    if k in s.reg && !s.sess[s.reg[k]].alive then s.(reg := s.reg - {k}) else s
  }

  function Found(s: State, k: Key): Option<Sid>
    requires k in s.reg ==> s.reg[k] < |s.sess|
  {
    if k in s.reg && Live(s.sess[s.reg[k]]) then Some(s.reg[k]) else None
  }

  // ---- Segments --------------------------------------------------------------------------------

  /** Spawn, register and attach; nothing in between awaits, the replay buffer being empty. */
  function Spawned(s: State, t: Tid, k: Key): State
    requires t < |s.tasks|
  {
    var n := |s.sess|;
    State(s.sess + [Sess(k, true, false, Some(t), None)], s.reg[k := n], s.lock - {k},
          s.tasks[t := Open(n)] + [Sleeps(Idle(n))])
  }

  function TermEnds(s: State, t: Tid, k: Key, x: Sid, starts: bool): State
    requires t < |s.tasks| && x < |s.sess|
  {
    var u := Unregistered(Die(s, x), k, x);
    if starts then Spawned(u, t, k) else Leave(u, t, k, Done)
  }

  function TermBegins(s: State, t: Tid, k: Key, x: Sid, starts: bool): State
    requires t < |s.tasks| && x < |s.sess|
  {
    if !s.sess[x].alive then TermEnds(s, t, k, x, starts)
    else Go(s.(sess := s.sess[x := s.sess[x].(terminating := true)]), t, Terminating(k, x, starts))
  }

  function Installs(s: State, t: Tid, k: Key, x: Sid, replay: bool): State
    requires t < |s.tasks| && x < |s.sess|
  {
    var u := SetWs(s, x, Some(t));
    if replay then Go(u, t, Replaying(k, x)) else Leave(u, t, k, Open(x))
  }

  function AttachBegins(s: State, t: Tid, k: Key, x: Sid, replay: bool): State
    requires t < |s.tasks| && x < |s.sess|
  {
    var u := CancelGrace(s, x);
    if u.sess[x].ws.Some? then Go(SetWs(u, x, None), t, Reattaching(k, x, Stopping))
    else Installs(u, t, k, x, replay)
  }

  /** `start_locked` on a live session. */
  function Replaces(s: State, t: Tid, k: Key, x: Sid): State
    requires t < |s.tasks| && x < |s.sess|
  {
    var u := CancelGrace(s, x);
    if u.sess[x].ws.Some? then Go(SetWs(u, x, None), t, Replacing(k, x, Stopping)) else TermBegins(u, t, k, x, true)
  }

  function StartLocked(s: State, t: Tid, k: Key): State
    requires t < |s.tasks| && RegOk(s.sess, s.reg)
  {
    var p := Pruned(s, k);
    match Found(p, k)
    case None => Spawned(p, t, k)
    case Some(x) => Replaces(p, t, k, x)
  }

  /** `_notify_and_terminate`. */
  function Dismiss(s: State, t: Tid, k: Key, x: Sid): State
    requires t < |s.tasks| && x < |s.sess|
  {
    if s.sess[x].ws.Some? then Go(SetWs(s, x, None), t, Farewell(k, x, Queued)) else TermBegins(s, t, k, x, false)
  }

  /** What the environment decides for a segment. */
  datatype Choice = Choice(history: bool, replay: bool, fails: bool, late: bool)

  function Serves(s: State, t: Tid, k: Key, afresh: bool, c: Choice): State
    requires t < |s.tasks| && RegOk(s.sess, s.reg)
  {
    var p := Pruned(s, k);
    match Found(p, k)
    case Some(x) => if afresh then StartLocked(p, t, k) else AttachBegins(p, t, k, x, c.replay)
    case None => if !afresh && c.history then Go(p, t, LooksUp(k)) else StartLocked(p, t, k)
  }

  function Ends(s: State, t: Tid, k: Key): State
    requires t < |s.tasks| && RegOk(s.sess, s.reg)
  {
    var p := Pruned(s, k);
    match Found(p, k)
    case None => Leave(p, t, k, Done)
    case Some(x) => Dismiss(CancelGrace(p, x), t, k, x)
  }

  predicate IsRegistered(s: State, k: Key, x: Sid) {
    k in s.reg && s.reg[k] == x
  }

  function GraceExpires(s: State, t: Tid, k: Key, x: Sid): State
    requires t < |s.tasks| && x < |s.sess|
  {
    if !IsRegistered(s, k, x) || s.sess[x].ws.Some? || !s.sess[x].alive then Leave(s, t, k, Done)
    else TermBegins(s, t, k, x, false)
  }

  function IdleExpires(s: State, t: Tid, k: Key, x: Sid): State
    requires t < |s.tasks| && x < |s.sess|
  {
    if !IsRegistered(s, k, x) || !s.sess[x].alive then Leave(s, t, k, Done)
    else Dismiss(s, t, k, x)
  }

  function Detaches(s: State, t: Tid, x: Sid): State
    requires t < |s.tasks| && x < |s.sess|
  {
    if s.sess[x].ws != Some(t) then Go(s, t, Done) else Go(SetWs(s, x, None), t, Detaching(x))
  }

  /** The end of `detach`: a living session gets a grace countdown. */
  function Detached(s: State, t: Tid, x: Sid): State
    requires t < |s.tasks| && x < |s.sess|
  {
    var u := Go(s, t, Done);
    if s.sess[x].alive then SetGrace(u, x, Some(|u.tasks|)).(tasks := u.tasks + [Sleeps(Grace(x))]) else u
  }

  /** The end of a countdown's sleep; a grace countdown forgets itself. */
  function Fires(s: State, t: Tid, job: Job): State
    requires t < |s.tasks| && (job.Grace? || job.Idle?) && job.x < |s.sess|
  {
    Go(if job.Grace? then SetGrace(s, job.x, None) else s, t, Waits(s.sess[job.x].key, job))
  }

  function JobHeld(s: State, t: Tid, k: Key, job: Job, c: Choice): State
    requires t < |s.tasks| && RegOk(s.sess, s.reg) && ((job.Grace? || job.Idle?) ==> job.x < |s.sess|)
  {
    match job
    case Serve(afresh) => Serves(s, t, k, afresh, c)
    case End => Ends(s, t, k)
    case Grace(x) => GraceExpires(s, t, k, x)
    case Idle(x) => IdleExpires(s, t, k, x)
  }

  /** A task's own key and session exist. */
  predicate Refers(sess: seq<Sess>, pc: Pc) {
    match pc
    case Sleeps(job) => (job.Grace? || job.Idle?) && job.x < |sess|
    case Waits(k, job) => (job.Grace? || job.Idle?) ==> job.x < |sess| && sess[job.x].key == k
    case Holds(k, job) => (job.Grace? || job.Idle?) ==> job.x < |sess| && sess[job.x].key == k
    case Reattaching(k, x, _) => x < |sess| && sess[x].key == k
    case Replaying(k, x) => x < |sess| && sess[x].key == k
    case Replacing(k, x, _) => x < |sess| && sess[x].key == k
    case Farewell(k, x, _) => x < |sess| && sess[x].key == k
    case Terminating(k, x, _) => x < |sess| && sess[x].key == k
    case Open(x) => x < |sess|
    case Detaching(x) => x < |sess|
    case _ => true
  }

  datatype Step =
    | Connects(key: Key, afresh: bool)    // a terminal route reaches the lock
    | Asks(key: Key)                     // a request to end the session
    | Proceeds(t: Tid, c: Choice)        // the task's await is over
    | Cancelled(t: Tid)                  // CancelledError at its await
    | Exits(x: Sid)                      // _handle_exit
    | Peeks(key: Key)                    // get_live without the lock, by the status hub

  /** The session numbers in the map and in the tasks exist; `RunKeepsInv` shows they always do. */
  ghost predicate Coherent(s: State) {
    RegOk(s.sess, s.reg) && forall t :: 0 <= t < |s.tasks| ==> Refers(s.sess, s.tasks[t])
  }

  ghost predicate Enabled(s: State, step: Step) {
    Coherent(s) &&
    match step
    case Connects(_, _) => true
    case Asks(_) => true
    case Proceeds(t, _) => t < |s.tasks| && !s.tasks[t].Done? && (s.tasks[t].Waits? ==> s.tasks[t].key !in s.lock)
    case Cancelled(t) => t < |s.tasks| && !s.tasks[t].Done? && !s.tasks[t].Holds?
    case Exits(x) => x < |s.sess|
    case Peeks(_) => true
  }

  function AfterProceed(s: State, t: Tid, c: Choice): State
    requires t < |s.tasks| && RegOk(s.sess, s.reg) && Refers(s.sess, s.tasks[t])
  {
    match s.tasks[t]
    case Sleeps(job) => Fires(s, t, job)
    case Waits(k, job) => Go(s.(lock := s.lock[k := t]), t, Holds(k, job))
    case Holds(k, job) => JobHeld(s, t, k, job, c)
    case LooksUp(k) => if c.fails then Go(s, t, Unwinding(k)) else StartLocked(s, t, k)
    case Reattaching(k, x, stage) =>
      if stage.Stopping? then Go(s, t, Reattaching(k, x, Closing)) else Installs(s, t, k, x, c.replay)
    case Replaying(k, x) => Leave(s, t, k, Open(x))
    case Replacing(k, x, stage) =>
      if stage.Stopping? then Go(s, t, Replacing(k, x, Closing)) else TermBegins(s, t, k, x, true)
    case Farewell(k, x, stage) =>
      if stage.Stopping? then Go(s, t, Farewell(k, x, Closing))
      else if stage.Queued? && c.late then Go(s, t, Farewell(k, x, Stopping))
      else TermBegins(s, t, k, x, false)
    case Terminating(k, x, starts) => TermEnds(s, t, k, x, starts)
    case Unwinding(k) => Leave(s, t, k, Done)
    case Open(x) => Detaches(s, t, x)
    case Detaching(x) => Detached(s, t, x)
    case Done => s
  }

  /** Whether the task waits in `_stop_outbound_writer`, and goes on when it is cancelled. */
  predicate Shielded(pc: Pc) {
    pc.Detaching? || ((pc.Reattaching? || pc.Replacing? || pc.Farewell?) && pc.stage.Stopping?)
  }

  /** CancelledError at the task's await. A task that is stopping a writer goes on; a route that is
      being attached or served lets go of its socket; any other task ends and gives up its lock. */
  function AfterCancel(s: State, t: Tid): State
    requires t < |s.tasks| && Refers(s.sess, s.tasks[t])
  {
    match s.tasks[t]
    case Detaching(x) => Detached(s, t, x)
    case Replaying(k, x) => Go(if s.sess[x].ws == Some(t) then SetWs(s, x, None) else s, t, Unwinding(k))
    case Open(x) => Detaches(s, t, x)
    case pc =>
      if Shielded(pc) then Go(s, t, NextStage(pc))
      else match Held(pc) { case Some(k) => Leave(s, t, k, Done) case None => Go(s, t, Done) }
  }

  function NextStage(pc: Pc): Pc {
    match pc
    case Reattaching(k, x, _) => Reattaching(k, x, Closing)
    case Replacing(k, x, _) => Replacing(k, x, Closing)
    case Farewell(k, x, _) => Farewell(k, x, Closing)
    case _ => pc
  }

  function AfterExit(s: State, x: Sid): State
    requires x < |s.sess|
  {
    if s.sess[x].alive then SetWs(Die(s, x), x, None) else s
  }

  function Next(s: State, step: Step): State
    requires Enabled(s, step)
  {
    match step
    case Connects(k, afresh) => s.(tasks := s.tasks + [Waits(k, Serve(afresh))])
    case Asks(k) => s.(tasks := s.tasks + [Waits(k, End)])
    case Proceeds(t, c) => AfterProceed(s, t, c)
    case Cancelled(t) => AfterCancel(s, t)
    case Exits(x) => AfterExit(s, x)
    case Peeks(k) => Pruned(s, k)
  }

  // ---- Invariant -------------------------------------------------------------------------------

  ghost predicate LockOk(lock: map<Key, Tid>, tasks: seq<Pc>) {
    && (forall t :: 0 <= t < |tasks| && Held(tasks[t]).Some? ==>
          Held(tasks[t]).value in lock && lock[Held(tasks[t]).value] == t)
    && (forall k :: k in lock ==> lock[k] < |tasks| && Held(tasks[lock[k]]) == Some(k))
  }

  /** Whoever lives is registered. */
  ghost predicate Owned(sess: seq<Sess>, reg: map<Key, Sid>) {
    forall x :: 0 <= x < |sess| && Live(sess[x]) ==> sess[x].key in reg && reg[sess[x].key] == x
  }

  /** The key names x or nothing. */
  predicate Only(reg: map<Key, Sid>, k: Key, x: Sid) {
    k in reg ==> reg[k] == x
  }

  predicate Vacant(sess: seq<Sess>, reg: map<Key, Sid>, k: Key) {
    k in reg ==> reg[k] < |sess| && !Live(sess[reg[k]])
  }

  /** What a task relies on while it holds the lock. */
  predicate TaskOk(sess: seq<Sess>, reg: map<Key, Sid>, pc: Pc) {
    Refers(sess, pc) &&
    match pc
    case LooksUp(k) => Vacant(sess, reg, k)
    case Reattaching(k, x, _) => !sess[x].terminating && sess[x].ws.None?
    case Replaying(k, x) => !sess[x].terminating
    case Replacing(k, x, _) => !sess[x].terminating && sess[x].ws.None? && Only(reg, k, x)
    case Farewell(k, x, _) => !sess[x].terminating && sess[x].ws.None?
    case Terminating(k, x, starts) => sess[x].terminating && (starts ==> Only(reg, k, x))
    case _ => true
  }

  ghost predicate TasksOk(sess: seq<Sess>, reg: map<Key, Sid>, tasks: seq<Pc>) {
    forall t :: 0 <= t < |tasks| ==> TaskOk(sess, reg, tasks[t])
  }

  predicate Attached(pc: Pc, x: Sid) {
    pc == Open(x) || (pc.Replaying? && pc.x == x)
  }

  ghost predicate SocketsOk(sess: seq<Sess>, tasks: seq<Pc>) {
    forall x :: 0 <= x < |sess| && sess[x].ws.Some? ==>
      !sess[x].terminating && sess[x].ws.value < |tasks| && Attached(tasks[sess[x].ws.value], x)
  }

  ghost predicate Inv(s: State) {
    && RegOk(s.sess, s.reg)
    && LockOk(s.lock, s.tasks)
    && Owned(s.sess, s.reg)
    && TasksOk(s.sess, s.reg, s.tasks)
    && SocketsOk(s.sess, s.tasks)
  }

  /** Task t holds the lock of k. */
  predicate Has(s: State, t: Tid, k: Key) {
    t < |s.tasks| && Held(s.tasks[t]) == Some(k)
  }

  // ---- Small operations keep it ------------------------------------------------------------------

  lemma PrunedKeeps(s: State, k: Key)
    requires Inv(s)
    ensures Inv(Pruned(s, k)) && Vacant(s.sess, s.reg, k) == Found(Pruned(s, k), k).None?
    ensures Found(Pruned(s, k), k) == Found(s, k)
  {
  }

  /** A session may lose its socket or die; what tasks rely on stays. */
  predicate Fades(x: Sess, y: Sess) {
    && y.key == x.key && y.terminating == x.terminating && (y.alive ==> x.alive)
    && (y.ws == x.ws || y.ws.None?)
  }

  lemma FadingKeeps(s: State, t: State)
    requires Inv(s) && t == s.(sess := t.sess) && |t.sess| == |s.sess|
    requires forall x :: 0 <= x < |s.sess| ==> Fades(s.sess[x], t.sess[x])
    ensures Inv(t)
  {
    forall u | 0 <= u < |t.tasks| ensures TaskOk(t.sess, t.reg, t.tasks[u]) {
      assert TaskOk(s.sess, s.reg, s.tasks[u]);
    }
  }

  lemma ClearKeeps(s: State, x: Sid)
    requires Inv(s) && x < |s.sess|
    ensures Inv(SetWs(s, x, None))
  {
    FadingKeeps(s, SetWs(s, x, None));
  }

  lemma DieKeeps(s: State, x: Sid)
    requires Inv(s) && x < |s.sess|
    ensures Inv(Die(s, x))
  {
    FadingKeeps(s, Die(s, x));
  }

  lemma GraceKeeps(s: State, x: Sid, grace: Option<Tid>)
    requires Inv(s) && x < |s.sess|
    ensures Inv(SetGrace(s, x, grace))
  {
    FadingKeeps(s, SetGrace(s, x, grace));
  }

  lemma UnregisteredKeeps(s: State, k: Key, x: Sid)
    requires Inv(s) && x < |s.sess| && !Live(s.sess[x])
    ensures Inv(Unregistered(s, k, x))
  {
  }

  /** A task moves on inside its lock. */
  lemma GoKeeps(s: State, t: Tid, pc: Pc)
    requires Inv(s) && t < |s.tasks| && Held(s.tasks[t]) == Held(pc)
    requires TaskOk(s.sess, s.reg, pc)
    requires forall x :: 0 <= x < |s.sess| && s.sess[x].ws == Some(t) ==> Attached(pc, x)
    ensures Inv(Go(s, t, pc))
  {
  }

  lemma LeaveKeeps(s: State, t: Tid, k: Key, pc: Pc)
    requires Inv(s) && Has(s, t, k) && Held(pc).None?
    requires TaskOk(s.sess, s.reg, pc)
    requires forall x :: 0 <= x < |s.sess| && s.sess[x].ws == Some(t) ==> Attached(pc, x)
    ensures Inv(Leave(s, t, k, pc))
  {
  }

  /** Before its first segment under the lock a task has no socket on any session. */
  lemma NoSocketYet(s: State, t: Tid)
    requires Inv(s) && t < |s.tasks| && !s.tasks[t].Open? && !s.tasks[t].Replaying?
    ensures forall x :: 0 <= x < |s.sess| ==> s.sess[x].ws != Some(t)
  {
  }

  /** Cancelling a countdown changes no other task, and of its session only the reference. */
  lemma CancelGraceKeeps(s: State, x: Sid)
    requires Inv(s) && x < |s.sess|
    ensures Inv(CancelGrace(s, x))
    ensures var u := CancelGrace(s, x);
            && u.reg == s.reg && u.lock == s.lock && |u.tasks| == |s.tasks| && |u.sess| == |s.sess|
            && u.sess[x] == s.sess[x].(grace := None)
            && forall t :: 0 <= t < |s.tasks| && !s.tasks[t].Sleeps? ==> u.tasks[t] == s.tasks[t]
  {
    if s.sess[x].grace.Some? {
      var g := s.sess[x].grace.value;
      GraceKeeps(s, x, None);
      if g < |s.tasks| && s.tasks[g] == Sleeps(Grace(x)) {
        NoSocketYet(s, g);
        GoKeeps(SetGrace(s, x, None), g, Done);
      }
    }
  }

  /** A lock holder other than t relies on nothing under t's key. */
  lemma OthersElsewhere(s: State, t: Tid, k: Key, u: Tid)
    requires Inv(s) && Has(s, t, k) && u < |s.tasks| && u != t
    ensures Held(s.tasks[u]) != Some(k)
  {
  }

  lemma MarkKeeps(s: State, t: Tid, k: Key, x: Sid, starts: bool)
    requires Inv(s) && Has(s, t, k) && !s.tasks[t].Replaying?
    requires x < |s.sess| && s.sess[x].key == k && s.sess[x].ws.None?
    requires starts ==> Only(s.reg, k, x)
    ensures Inv(Go(s.(sess := s.sess[x := s.sess[x].(terminating := true)]), t, Terminating(k, x, starts)))
  {
    var v := Go(s.(sess := s.sess[x := s.sess[x].(terminating := true)]), t, Terminating(k, x, starts));
    NoSocketYet(s, t);
    forall u | 0 <= u < |v.tasks| ensures TaskOk(v.sess, v.reg, v.tasks[u]) {
      if u != t {
        OthersElsewhere(s, t, k, u);
        assert TaskOk(s.sess, s.reg, s.tasks[u]);
      }
    }
  }

  lemma SpawnedKeeps(s: State, t: Tid, k: Key)
    requires Inv(s) && Has(s, t, k) && !s.tasks[t].Replaying? && Vacant(s.sess, s.reg, k)
    ensures Inv(Spawned(s, t, k))
  {
    var v := Spawned(s, t, k);
    NoSocketYet(s, t);
    forall u | 0 <= u < |v.tasks| ensures TaskOk(v.sess, v.reg, v.tasks[u]) {
      if u != t && u < |s.tasks| {
        OthersElsewhere(s, t, k, u);
        assert TaskOk(s.sess, s.reg, s.tasks[u]);
      }
    }
  }

  lemma InstallsKeeps(s: State, t: Tid, k: Key, x: Sid, replay: bool)
    requires Inv(s) && Has(s, t, k) && !s.tasks[t].Replaying?
    requires x < |s.sess| && s.sess[x].key == k && !s.sess[x].terminating && s.sess[x].ws.None?
    ensures Inv(Installs(s, t, k, x, replay))
  {
    var v := Installs(s, t, k, x, replay);
    NoSocketYet(s, t);
    forall u | 0 <= u < |v.tasks| ensures TaskOk(v.sess, v.reg, v.tasks[u]) {
      if u != t {
        OthersElsewhere(s, t, k, u);
        assert TaskOk(s.sess, s.reg, s.tasks[u]);
      }
    }
  }

  // ---- Segments keep it --------------------------------------------------------------------------

  lemma TermEndsKeeps(s: State, t: Tid, k: Key, x: Sid, starts: bool)
    requires Inv(s) && Has(s, t, k) && !s.tasks[t].Replaying? && x < |s.sess| && s.sess[x].key == k
    requires starts ==> Only(s.reg, k, x)
    ensures Inv(TermEnds(s, t, k, x, starts))
  {
    DieKeeps(s, x);
    var d := Die(s, x);
    UnregisteredKeeps(d, k, x);
    var u := Unregistered(d, k, x);
    if starts {
      SpawnedKeeps(u, t, k);
    } else {
      NoSocketYet(u, t);
      LeaveKeeps(u, t, k, Done);
    }
  }

  lemma TermBeginsKeeps(s: State, t: Tid, k: Key, x: Sid, starts: bool)
    requires Inv(s) && Has(s, t, k) && !s.tasks[t].Replaying?
    requires x < |s.sess| && s.sess[x].key == k && s.sess[x].ws.None?
    requires starts ==> Only(s.reg, k, x)
    ensures Inv(TermBegins(s, t, k, x, starts))
  {
    if s.sess[x].alive {
      MarkKeeps(s, t, k, x, starts);
    } else {
      TermEndsKeeps(s, t, k, x, starts);
    }
  }

  lemma AttachKeeps(s: State, t: Tid, k: Key, x: Sid, replay: bool)
    requires Inv(s) && Has(s, t, k) && !s.tasks[t].Replaying?
    requires x < |s.sess| && s.sess[x].key == k && !s.sess[x].terminating
    ensures Inv(AttachBegins(s, t, k, x, replay))
  {
    CancelGraceKeeps(s, x);
    var u := CancelGrace(s, x);
    if u.sess[x].ws.Some? {
      ClearKeeps(u, x);
      NoSocketYet(u, t);
      GoKeeps(SetWs(u, x, None), t, Reattaching(k, x, Stopping));
    } else {
      InstallsKeeps(u, t, k, x, replay);
    }
  }

  lemma ReplacesKeeps(s: State, t: Tid, k: Key, x: Sid)
    requires Inv(s) && Has(s, t, k) && !s.tasks[t].Replaying?
    requires x < |s.sess| && s.sess[x].key == k && Only(s.reg, k, x)
    ensures Inv(Replaces(s, t, k, x))
  {
    CancelGraceKeeps(s, x);
    var u := CancelGrace(s, x);
    if u.sess[x].ws.Some? {
      ClearKeeps(u, x);
      NoSocketYet(u, t);
      GoKeeps(SetWs(u, x, None), t, Replacing(k, x, Stopping));
    } else {
      TermBeginsKeeps(u, t, k, x, true);
    }
  }

  lemma StartKeeps(s: State, t: Tid, k: Key)
    requires Inv(s) && Has(s, t, k) && !s.tasks[t].Replaying?
    ensures Inv(StartLocked(s, t, k))
  {
    PrunedKeeps(s, k);
    var p := Pruned(s, k);
    match Found(p, k) {
      case None => SpawnedKeeps(p, t, k);
      case Some(x) => ReplacesKeeps(p, t, k, x);
    }
  }

  lemma DismissKeeps(s: State, t: Tid, k: Key, x: Sid)
    requires Inv(s) && Has(s, t, k) && !s.tasks[t].Replaying? && x < |s.sess| && s.sess[x].key == k
    ensures Inv(Dismiss(s, t, k, x))
  {
    if s.sess[x].ws.Some? {
      ClearKeeps(s, x);
      NoSocketYet(s, t);
      GoKeeps(SetWs(s, x, None), t, Farewell(k, x, Queued));
    } else {
      TermBeginsKeeps(s, t, k, x, false);
    }
  }

  lemma JobKeeps(s: State, t: Tid, k: Key, job: Job, c: Choice)
    requires Inv(s) && t < |s.tasks| && s.tasks[t] == Holds(k, job)
    ensures Inv(JobHeld(s, t, k, job, c))
  {
    NoSocketYet(s, t);
    PrunedKeeps(s, k);
    var p := Pruned(s, k);
    match job
    case Serve(afresh) =>
      if Found(p, k).Some? && !afresh {
        AttachKeeps(p, t, k, Found(p, k).value, c.replay);
      } else if !afresh && c.history {
        GoKeeps(p, t, LooksUp(k));
      } else {
        StartKeeps(p, t, k);
      }
    case End =>
      if Found(p, k).Some? {
        CancelGraceKeeps(p, Found(p, k).value);
        DismissKeeps(CancelGrace(p, Found(p, k).value), t, k, Found(p, k).value);
      } else {
        LeaveKeeps(p, t, k, Done);
      }
    case Grace(x) =>
      if !IsRegistered(s, k, x) || s.sess[x].ws.Some? || !s.sess[x].alive {
        LeaveKeeps(s, t, k, Done);
      } else {
        TermBeginsKeeps(s, t, k, x, false);
      }
    case Idle(x) =>
      if !IsRegistered(s, k, x) || !s.sess[x].alive {
        LeaveKeeps(s, t, k, Done);
      } else {
        DismissKeeps(s, t, k, x);
      }
  }

  lemma DetachesKeeps(s: State, t: Tid, x: Sid)
    requires Inv(s) && t < |s.tasks| && s.tasks[t] == Open(x)
    ensures Inv(Detaches(s, t, x))
  {
    if s.sess[x].ws != Some(t) {
      GoKeeps(s, t, Done);
    } else {
      ClearKeeps(s, x);
      GoKeeps(SetWs(s, x, None), t, Detaching(x));
    }
  }

  lemma AppendKeeps(s: State, pc: Pc)
    requires Inv(s) && Held(pc).None? && TaskOk(s.sess, s.reg, pc)
    ensures Inv(s.(tasks := s.tasks + [pc]))
  {
  }

  lemma LockKeeps(s: State, t: Tid, k: Key, job: Job)
    requires Inv(s) && t < |s.tasks| && s.tasks[t] == Waits(k, job) && k !in s.lock
    ensures Inv(Go(s.(lock := s.lock[k := t]), t, Holds(k, job)))
  {
    NoSocketYet(s, t);
    assert TaskOk(s.sess, s.reg, s.tasks[t]);
  }

  lemma FiresKeeps(s: State, t: Tid, job: Job)
    requires Inv(s) && t < |s.tasks| && s.tasks[t] == Sleeps(job) && Refers(s.sess, s.tasks[t])
    ensures Inv(Fires(s, t, job))
  {
    NoSocketYet(s, t);
    GraceKeeps(s, job.x, None);
    GoKeeps(if job.Grace? then SetGrace(s, job.x, None) else s, t, Waits(s.sess[job.x].key, job));
  }

  lemma DetachedKeeps(s: State, t: Tid, x: Sid)
    requires Inv(s) && t < |s.tasks| && s.tasks[t] == Detaching(x) && x < |s.sess|
    ensures Inv(Detached(s, t, x))
  {
    NoSocketYet(s, t);
    GoKeeps(s, t, Done);
    var u := Go(s, t, Done);
    GraceKeeps(u, x, Some(|u.tasks|));
    AppendKeeps(SetGrace(u, x, Some(|u.tasks|)), Sleeps(Grace(x)));
  }

  predicate SameErrand(now: Pc, pc: Pc) {
    || (now.Reattaching? && pc.Reattaching? && pc.key == now.key && pc.x == now.x)
    || (now.Replacing? && pc.Replacing? && pc.key == now.key && pc.x == now.x)
    || (now.Farewell? && pc.Farewell? && pc.key == now.key && pc.x == now.x)
  }

  /** A task that sees a socket off moves to another stage of it. */
  lemma StageKeeps(s: State, t: Tid, pc: Pc)
    requires Inv(s) && t < |s.tasks|
    requires SameErrand(s.tasks[t], pc)
    ensures Inv(Go(s, t, pc))
  {
    NoSocketYet(s, t);
    assert TaskOk(s.sess, s.reg, s.tasks[t]);
    GoKeeps(s, t, pc);
  }

  lemma ProceedKeeps(s: State, t: Tid, c: Choice)
    requires Inv(s) && Enabled(s, Proceeds(t, c))
    ensures Inv(AfterProceed(s, t, c))
  {
    assert TaskOk(s.sess, s.reg, s.tasks[t]);
    match s.tasks[t]
    case Sleeps(job) => FiresKeeps(s, t, job);
    case Waits(k, job) => LockKeeps(s, t, k, job);
    case Holds(k, job) => JobKeeps(s, t, k, job, c);
    case LooksUp(k) =>
      if c.fails {
        NoSocketYet(s, t);
        GoKeeps(s, t, Unwinding(k));
      } else {
        StartKeeps(s, t, k);
      }
    case Reattaching(k, x, stage) =>
      if stage.Stopping? {
        StageKeeps(s, t, Reattaching(k, x, Closing));
      } else {
        InstallsKeeps(s, t, k, x, c.replay);
      }
    case Replaying(k, x) => LeaveKeeps(s, t, k, Open(x));
    case Replacing(k, x, stage) =>
      if stage.Stopping? {
        StageKeeps(s, t, Replacing(k, x, Closing));
      } else {
        TermBeginsKeeps(s, t, k, x, true);
      }
    case Farewell(k, x, stage) =>
      if stage.Stopping? {
        StageKeeps(s, t, Farewell(k, x, Closing));
      } else if stage.Queued? && c.late {
        StageKeeps(s, t, Farewell(k, x, Stopping));
      } else {
        TermBeginsKeeps(s, t, k, x, false);
      }
    case Terminating(k, x, starts) => TermEndsKeeps(s, t, k, x, starts);
    case Unwinding(k) => NoSocketYet(s, t); LeaveKeeps(s, t, k, Done);
    case Open(x) => DetachesKeeps(s, t, x);
    case Detaching(x) => DetachedKeeps(s, t, x);
  }

  lemma CancelKeeps(s: State, t: Tid)
    requires Inv(s) && Enabled(s, Cancelled(t))
    ensures Inv(AfterCancel(s, t))
  {
    var pc := s.tasks[t];
    assert TaskOk(s.sess, s.reg, pc);
    if pc.Replaying? {
      ClearKeeps(s, pc.x);
      GoKeeps(if s.sess[pc.x].ws == Some(t) then SetWs(s, pc.x, None) else s, t, Unwinding(pc.key));
    } else if pc.Open? {
      DetachesKeeps(s, t, pc.x);
    } else if pc.Detaching? {
      DetachedKeeps(s, t, pc.x);
    } else if Shielded(pc) {
      StageKeeps(s, t, NextStage(pc));
    } else {
      NoSocketYet(s, t);
      match Held(pc) {
        case Some(k) => LeaveKeeps(s, t, k, Done);
        case None => GoKeeps(s, t, Done);
      }
    }
  }

  lemma StepKeepsInv(s: State, step: Step)
    requires Inv(s) && Enabled(s, step)
    ensures Inv(Next(s, step))
  {
    match step
    case Connects(k, afresh) => AppendKeeps(s, Waits(k, Serve(afresh)));
    case Asks(k) => AppendKeeps(s, Waits(k, End));
    case Proceeds(t, c) => ProceedKeeps(s, t, c);
    case Cancelled(t) => CancelKeeps(s, t);
    case Exits(x) => DieKeeps(s, x); ClearKeeps(Die(s, x), x);
    case Peeks(k) => PrunedKeeps(s, k);
  }

  ghost predicate Run(s: State, steps: seq<Step>, t: State)
    decreases |steps|
  {
    if steps == [] then s == t
    else Enabled(s, steps[0]) && Run(Next(s, steps[0]), steps[1..], t)
  }

  lemma {:induction false} RunKeepsInv(s: State, steps: seq<Step>, t: State)
    requires Inv(s) && Run(s, steps, t)
    ensures Inv(t) && Coherent(t)
    decreases |steps|
  {
    if steps != [] {
      StepKeepsInv(s, steps[0]);
      RunKeepsInv(Next(s, steps[0]), steps[1..], t);
    } else {
      forall i | 0 <= i < |t.tasks| ensures Refers(t.sess, t.tasks[i]) {
        assert TaskOk(t.sess, t.reg, t.tasks[i]);
      }
    }
  }

  // ---- Theorems ----------------------------------------------------------------------------------

  /** In every run, with tasks cancelled at any await, a session that is alive and not terminating
      is the one its key names: nothing runs unreachable, and each key has at most one. */
  lemma Ownership(steps: seq<Step>, t: State, x: Sid)
    requires Run(START, steps, t) && x < |t.sess| && Live(t.sess[x])
    ensures IsRegistered(t, t.sess[x].key, x)
    ensures forall y :: 0 <= y < |t.sess| && Live(t.sess[y]) && t.sess[y].key == t.sess[x].key ==> y == x
  {
    RunKeepsInv(START, steps, t);
  }

  /** So the map tells the truth about every key, whoever asks and whenever. */
  lemma GetLiveAnswers(steps: seq<Step>, t: State, k: Key)
    requires Run(START, steps, t)
    ensures (k in t.reg ==> t.reg[k] < |t.sess|)
    ensures Found(t, k).None? <==> forall x :: 0 <= x < |t.sess| && t.sess[x].key == k ==> !Live(t.sess[x])
    ensures forall x :: Found(t, k) == Some(x) ==> x < |t.sess| && t.sess[x].key == k && Live(t.sess[x])
  {
    RunKeepsInv(START, steps, t);
  }

  /** The session a route chose and any session it is being attached to. */
  predicate Serving(pc: Pc, x: Sid) {
    (pc.Reattaching? || pc.Replaying?) && pc.x == x
  }

  /** From the check to the end of `attach` the chosen session is never terminating, nobody else
      is inside its key's lock, and no other session of its key lives. */
  lemma ChosenSessionStays(steps: seq<Step>, t: State, r: Tid, x: Sid)
    requires Run(START, steps, t) && r < |t.tasks| && Serving(t.tasks[r], x)
    ensures x < |t.sess| && !t.sess[x].terminating
    ensures forall q :: 0 <= q < |t.tasks| && q != r ==> Held(t.tasks[q]) != Some(t.sess[x].key)
    ensures t.sess[x].alive ==> IsRegistered(t, t.sess[x].key, x)
  {
    RunKeepsInv(START, steps, t);
    assert TaskOk(t.sess, t.reg, t.tasks[r]);
    forall q | 0 <= q < |t.tasks| && q != r ensures Held(t.tasks[q]) != Some(t.sess[x].key) {
      OthersElsewhere(t, r, t.sess[x].key, q);
    }
  }

  predicate Terminates(s: State, p: Tid, x: Sid) {
    p < |s.tasks| && s.tasks[p].Terminating? && s.tasks[p].x == x
  }

  /** A terminating session never has a socket, and at most one task is terminating it. */
  lemma TerminatingIsAlone(steps: seq<Step>, t: State, x: Sid)
    requires Run(START, steps, t) && x < |t.sess|
    ensures t.sess[x].terminating ==> t.sess[x].ws.None?
    ensures forall p: Tid, q: Tid :: Terminates(t, p, x) && Terminates(t, q, x) ==> p == q
  {
    RunKeepsInv(START, steps, t);
    forall p: Tid, q: Tid | Terminates(t, p, x) && Terminates(t, q, x) ensures p == q {
      TerminatorHolds(t, p, x);
      TerminatorHolds(t, q, x);
    }
  }

  lemma TerminatorHolds(t: State, p: Tid, x: Sid)
    requires Inv(t) && Terminates(t, p, x) && x < |t.sess|
    ensures t.sess[x].key in t.lock && t.lock[t.sess[x].key] == p
  {
    assert TaskOk(t.sess, t.reg, t.tasks[p]);
  }

  /** A socket is attached to at most one session, by the task that serves it. */
  lemma SocketsAreExclusive(steps: seq<Step>, t: State, x: Sid, y: Sid)
    requires Run(START, steps, t) && x < |t.sess| && y < |t.sess|
    requires t.sess[x].ws.Some? && t.sess[x].ws == t.sess[y].ws
    ensures x == y && t.sess[x].ws.value < |t.tasks| && Attached(t.tasks[t.sess[x].ws.value], x)
  {
    RunKeepsInv(START, steps, t);
  }

  /** A grace countdown that has the lock starts terminating exactly a session that is registered,
      alive and without a socket; otherwise it leaves every session and the map alone. */
  lemma GraceDecides(steps: seq<Step>, t: State, g: Tid, c: Choice, k: Key, x: Sid)
    requires Run(START, steps, t) && g < |t.tasks| && t.tasks[g] == Holds(k, Grace(x))
    ensures Coherent(t)
    ensures var n := Next(t, Proceeds(g, c));
            if IsRegistered(t, k, x) && t.sess[x].alive && t.sess[x].ws.None?
            then n.tasks[g] == Terminating(k, x, false) && n.sess[x].terminating && n.reg == t.reg
            else n.sess == t.sess && n.reg == t.reg && k !in n.lock && n.tasks[g] == Done
  {
    RunKeepsInv(START, steps, t);
  }

  /** The session a task is about, once it has one. */
  function About(pc: Pc): Option<Sid> {
    match pc
    case Sleeps(job) => if job.Grace? || job.Idle? then Some(job.x) else None
    case Waits(_, job) => if job.Grace? || job.Idle? then Some(job.x) else None
    case Holds(_, job) => if job.Grace? || job.Idle? then Some(job.x) else None
    case Reattaching(_, x, _) => Some(x)
    case Replaying(_, x) => Some(x)
    case Replacing(_, x, _) => Some(x)
    case Farewell(_, x, _) => Some(x)
    case Terminating(_, x, _) => Some(x)
    case Open(x) => Some(x)
    case Detaching(x) => Some(x)
    case _ => None
  }

  /** Session y and an entry that names it are as before. */
  predicate Spares(s: State, n: State, y: Sid)
    requires y < |s.sess|
  {
    && y < |n.sess| && n.sess[y] == s.sess[y]
    && (IsRegistered(s, s.sess[y].key, y) ==> IsRegistered(n, s.sess[y].key, y))
  }

  lemma TermEndsSpares(s: State, t: Tid, k: Key, x: Sid, starts: bool, y: Sid)
    requires t < |s.tasks| && x < |s.sess| && y < |s.sess| && x != y && (starts ==> Only(s.reg, k, x))
    ensures Spares(s, TermEnds(s, t, k, x, starts), y)
  {
  }

  lemma DismissSpares(s: State, t: Tid, k: Key, x: Sid, y: Sid)
    requires t < |s.tasks| && x < |s.sess| && y < |s.sess| && x != y
    ensures Spares(s, Dismiss(s, t, k, x), y)
  {
    TermEndsSpares(s, t, k, x, false, y);
  }

  lemma TimerSpares(s: State, t: Tid, k: Key, job: Job, c: Choice, y: Sid)
    requires t < |s.tasks| && RegOk(s.sess, s.reg) && y < |s.sess|
    requires (job.Grace? || job.Idle?) && job.x < |s.sess| && job.x != y
    ensures Spares(s, JobHeld(s, t, k, job, c), y)
  {
    TermEndsSpares(s, t, k, job.x, false, y);
    DismissSpares(s, t, k, job.x, y);
  }

  lemma InstallsSpares(s: State, t: Tid, k: Key, x: Sid, replay: bool, y: Sid)
    requires t < |s.tasks| && x < |s.sess| && y < |s.sess| && x != y
    ensures Spares(s, Installs(s, t, k, x, replay), y)
  {
  }

  lemma DetachSpares(s: State, t: Tid, x: Sid, y: Sid)
    requires t < |s.tasks| && x < |s.sess| && y < |s.sess| && x != y
    ensures Spares(s, Detaches(s, t, x), y) && Spares(s, Detached(s, t, x), y)
  {
  }

  lemma ProceedSpares(s: State, t: Tid, c: Choice, y: Sid)
    requires RegOk(s.sess, s.reg) && t < |s.tasks| && TaskOk(s.sess, s.reg, s.tasks[t]) && y < |s.sess|
    requires About(s.tasks[t]).Some? && About(s.tasks[t]).value != y
    ensures Spares(s, AfterProceed(s, t, c), y)
  {
    match s.tasks[t]
    case Terminating(k, x, starts) => TermEndsSpares(s, t, k, x, starts, y);
    case Replacing(k, x, _) => TermEndsSpares(s, t, k, x, true, y);
    case Farewell(k, x, _) => TermEndsSpares(s, t, k, x, false, y);
    case Holds(k, job) => TimerSpares(s, t, k, job, c, y);
    case Reattaching(k, x, _) => InstallsSpares(s, t, k, x, c.replay, y);
    case Open(x) => DetachSpares(s, t, x, y);
    case Detaching(x) => DetachSpares(s, t, x, y);
    case _ =>
  }

  /** Whatever a task that belongs to session x does - a late timer, a detach, the rest of a
      termination - it never touches another session, nor an entry that names another session. */
  lemma OldTasksSpareSuccessor(steps: seq<Step>, t: State, r: Tid, c: Choice, y: Sid)
    requires Run(START, steps, t) && Enabled(t, Proceeds(r, c)) && y < |t.sess|
    requires About(t.tasks[r]).Some? && About(t.tasks[r]) != Some(y)
    ensures Spares(t, Next(t, Proceeds(r, c)), y)
  {
    RunKeepsInv(START, steps, t);
    ProceedSpares(t, r, c, y);
  }

  /** While a route looks up the history nobody starts a session under its key, so what it found
      at first still holds when it starts one: mode "new" alone replaces a live session. */
  lemma LookupStaysVacant(steps: seq<Step>, t: State, r: Tid, k: Key, c: Choice)
    requires Run(START, steps, t) && r < |t.tasks| && t.tasks[r] == LooksUp(k) && !c.fails
    ensures Coherent(t)
    ensures var n := Next(t, Proceeds(r, c));
            && n.tasks[r] == Open(|t.sess|) && n.sess == t.sess + [Sess(k, true, false, Some(r), None)]
            && IsRegistered(n, k, |t.sess|)
  {
    RunKeepsInv(START, steps, t);
    assert TaskOk(t.sess, t.reg, t.tasks[r]);
    PrunedKeeps(t, k);
  }

  /** Nobody waits in vain: a task that has not finished can run, or waits for a lock whose holder
      can. No task asks for a second lock while it holds one. */
  lemma NoDeadlock(steps: seq<Step>, t: State, r: Tid, c: Choice)
    requires Run(START, steps, t) && r < |t.tasks| && !t.tasks[r].Done?
    ensures Enabled(t, Proceeds(r, c)) ||
            (t.tasks[r].Waits? && t.tasks[r].key in t.lock && Enabled(t, Proceeds(t.lock[t.tasks[r].key], c)))
  {
    RunKeepsInv(START, steps, t);
  }
}
