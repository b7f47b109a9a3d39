/** The single-instance lock: any number of processes run `_claim_pid_file` and
    `_release_pid_file` against one path, system call by system call, and may die anywhere.

    `lockf` locks belong to a process and an inode, not to the path. An inode number is not
    reused while some process has the file open, so inodes are taken to be fresh. */
module PidFile {
  import opened Common

  type Pid = nat
  type Inode = nat

  const ATTEMPTS: nat := 5

  /** Where a process is between two system calls; `tries` counts finished attempts. */
  datatype Phase =
    | Ready(tries: nat)                  // about to open the path
    | Opened(inode: Inode, tries: nat)   // about to lock the inode
    | Locked(inode: Inode, tries: nat)   // about to compare it with what the path names
    | Confirmed(inode: Inode)            // they agreed; about to truncate
    | Truncated(inode: Inode)            // about to write the pid
    | Written(inode: Inode)              // about to set _pid_fd
    | Claimed(inode: Inode)              // serving
    | Releasing(inode: Inode)            // _pid_fd taken out, about to read the pid back
    | Unlinking(inode: Inode)            // it is ours, about to unlink the path
    | Released(inode: Inode)             // the fd stays open, so the lock stays too
    | Gone

  datatype State = State(
    path: Option<Inode>,
    content: map<Inode, Pid>,
    locks: map<Inode, Pid>,
    procs: map<Pid, Phase>,
    nextInode: Inode)

  const EMPTY := State(None, map[], map[], map[], 0)

  datatype Step =
    | Starts(p: Pid)
    | Opens(p: Pid)
    | Locks(p: Pid)
    | Compares(p: Pid)
    | Truncates(p: Pid)
    | Writes(p: Pid)
    | Publishes(p: Pid)
    | BeginsRelease(p: Pid)
    | ReadsBack(p: Pid)
    | Unlinks(p: Pid)
    | Dies(p: Pid)             // exit, crash, or refusal to start
    | SomeoneElseUnlinks       // an rm by a script or a person

  predicate Is(s: State, p: Pid) {
    p in s.procs
  }

  predicate Enabled(s: State, step: Step) {
    match step
    case Starts(p) => p !in s.procs
    case Opens(p) => Is(s, p) && s.procs[p].Ready?
    case Locks(p) => Is(s, p) && s.procs[p].Opened?
    case Compares(p) => Is(s, p) && s.procs[p].Locked?
    case Truncates(p) => Is(s, p) && s.procs[p].Confirmed?
    case Writes(p) => Is(s, p) && s.procs[p].Truncated?
    case Publishes(p) => Is(s, p) && s.procs[p].Written?
    case BeginsRelease(p) => Is(s, p) && s.procs[p].Claimed?
    case ReadsBack(p) => Is(s, p) && s.procs[p].Releasing?
    case Unlinks(p) => Is(s, p) && s.procs[p].Unlinking?
    case Dies(p) => Is(s, p) && !s.procs[p].Gone?
    case SomeoneElseUnlinks => true
  }

  function Put(s: State, p: Pid, phase: Phase): State {
    s.(procs := s.procs[p := phase])
  }

  /** Closing a file gives up all locks the process has. */
  function Unlocked(locks: map<Inode, Pid>, p: Pid): (r: map<Inode, Pid>)
    ensures forall i :: i in r <==> i in locks && locks[i] != p
    ensures forall i :: i in r ==> r[i] == locks[i]
  {
    map i | i in locks && locks[i] != p :: locks[i]
  }

  function Die(s: State, p: Pid): State {
    Put(s.(locks := Unlocked(s.locks, p)), p, Gone)
  }

  function AfterOpen(s: State, p: Pid, tries: nat): State {
    match s.path
    case Some(i) => Put(s, p, Opened(i, tries))
    case None =>
      Put(s.(path := Some(s.nextInode), nextInode := s.nextInode + 1), p, Opened(s.nextInode, tries))
  }

  /** LOCK_NB: taken at once, or the process reports the other server and exits. */
  function AfterLock(s: State, p: Pid, i: Inode, tries: nat): State {
    if i in s.locks then Die(s, p)
    else Put(s.(locks := s.locks[i := p]), p, Locked(i, tries))
  }

  function AfterCompare(s: State, p: Pid, i: Inode, tries: nat): State {
    if s.path == Some(i) then Put(s, p, Confirmed(i))
    else if tries + 1 < ATTEMPTS then Put(s.(locks := Unlocked(s.locks, p)), p, Ready(tries + 1))
    else Die(s, p)
  }

  function Next(s: State, step: Step): State
    requires Enabled(s, step)
  {
    match step
    case Starts(p) => Put(s, p, Ready(0))
    case Opens(p) => AfterOpen(s, p, s.procs[p].tries)
    case Locks(p) => AfterLock(s, p, s.procs[p].inode, s.procs[p].tries)
    case Compares(p) => AfterCompare(s, p, s.procs[p].inode, s.procs[p].tries)
    case Truncates(p) =>
      Put(s.(content := s.content - {s.procs[p].inode}), p, Truncated(s.procs[p].inode))
    case Writes(p) =>
      Put(s.(content := s.content[s.procs[p].inode := p]), p, Written(s.procs[p].inode))
    case Publishes(p) => Put(s, p, Claimed(s.procs[p].inode))
    case BeginsRelease(p) => Put(s, p, Releasing(s.procs[p].inode))
    case ReadsBack(p) =>
      var i := s.procs[p].inode;
      if i in s.content && s.content[i] == p then Put(s, p, Unlinking(i)) else Put(s, p, Released(i))
    case Unlinks(p) => Put(s.(path := None), p, Released(s.procs[p].inode))
    case Dies(p) => Die(s, p)
    case SomeoneElseUnlinks => s.(path := None)
  }

  ghost predicate Run(s: State, steps: seq<Step>, t: State)
    decreases |steps|
  {
    if steps == [] then s == t
    else Enabled(s, steps[0]) && Run(Next(s, steps[0]), steps[1..], t)
  }

  // ---- Invariant ---------------------------------------------------------------------------

  /** Phases in which the process holds the lock on its inode. */
  predicate HoldsLock(phase: Phase) {
    !phase.Ready? && !phase.Opened? && !phase.Gone?
  }

  /** From the successful comparison to the unlink: the process relies on the path. */
  predicate Owns(phase: Phase) {
    phase.Confirmed? || phase.Truncated? || phase.Written? || phase.Claimed?
    || phase.Releasing? || phase.Unlinking?
  }

  /** The pid file names the process. */
  predicate HasWritten(phase: Phase) {
    phase.Written? || phase.Claimed? || phase.Releasing? || phase.Unlinking?
  }

  predicate ProcOk(s: State, p: Pid, phase: Phase) {
    && (phase.Opened? ==> phase.inode < s.nextInode)
    && (HoldsLock(phase) ==> phase.inode < s.nextInode && phase.inode in s.locks && s.locks[phase.inode] == p)
    && (HasWritten(phase) ==> phase.inode in s.content && s.content[phase.inode] == p)
  }

  /** Locks and processes agree. This much survives any interference with the path. */
  ghost predicate LocksOk(s: State) {
    && (s.path.Some? ==> s.path.value < s.nextInode)
    && (forall p :: p in s.procs ==> ProcOk(s, p, s.procs[p]))
    && (forall i :: i in s.locks ==>
          s.locks[i] in s.procs && HoldsLock(s.procs[s.locks[i]]) && s.procs[s.locks[i]].inode == i)
  }

  /** Every owner's inode is the one the path names. */
  ghost predicate PathOk(s: State) {
    forall p :: p in s.procs && Owns(s.procs[p]) ==> s.path == Some(s.procs[p].inode)
  }

  /** Another process is untouched as long as its lock and its file are. */
  lemma OthersStayOk(s: State, t: State, p: Pid)
    requires LocksOk(s) && s.nextInode <= t.nextInode
    requires forall q :: q in t.procs && q != p ==> q in s.procs && t.procs[q] == s.procs[q]
    requires forall i :: i in s.locks && s.locks[i] != p ==> i in t.locks && t.locks[i] == s.locks[i]
    requires forall i :: i in s.locks && s.locks[i] != p && i in s.content ==>
               i in t.content && t.content[i] == s.content[i]
    ensures forall q :: q in t.procs && q != p ==> ProcOk(t, q, t.procs[q])
  {
    forall q | q in t.procs && q != p ensures ProcOk(t, q, t.procs[q]) {
      assert ProcOk(s, q, s.procs[q]);
    }
  }

  lemma DieKeepsLocks(s: State, p: Pid, phase: Phase)
    requires LocksOk(s) && p in s.procs && (phase.Gone? || phase.Ready?)
    ensures LocksOk(Put(s.(locks := Unlocked(s.locks, p)), p, phase))
  {
    OthersStayOk(s, Put(s.(locks := Unlocked(s.locks, p)), p, phase), p);
  }

  lemma LockKeepsLocks(s: State, p: Pid, i: Inode, tries: nat)
    requires LocksOk(s) && p in s.procs && s.procs[p] == Opened(i, tries)
    ensures LocksOk(AfterLock(s, p, i, tries))
  {
    assert ProcOk(s, p, s.procs[p]);
    if i in s.locks {
      DieKeepsLocks(s, p, Gone);
    } else {
      OthersStayOk(s, AfterLock(s, p, i, tries), p);
    }
  }

  /** A lock holder moves on, possibly rewriting its own file. */
  lemma HolderKeepsLocks(s: State, p: Pid, phase: Phase, content: map<Inode, Pid>, path: Option<Inode>)
    requires LocksOk(s) && p in s.procs && HoldsLock(s.procs[p]) && HoldsLock(phase)
    requires phase.inode == s.procs[p].inode && (path == s.path || path == None)
    requires forall i :: i != phase.inode ==> (i in content <==> i in s.content)
    requires forall i :: i != phase.inode && i in content ==> content[i] == s.content[i]
    requires HasWritten(phase) ==> phase.inode in content && content[phase.inode] == p
    ensures LocksOk(Put(s.(content := content, path := path), p, phase))
  {
    var t := Put(s.(content := content, path := path), p, phase);
    assert ProcOk(s, p, s.procs[p]);
    OthersStayOk(s, t, p);
  }

  lemma OpenKeepsLocks(s: State, p: Pid, tries: nat)
    requires LocksOk(s) && p in s.procs && s.procs[p].Ready?
    ensures LocksOk(AfterOpen(s, p, tries))
  {
    OthersStayOk(s, AfterOpen(s, p, tries), p);
  }

  lemma StepKeepsLocks(s: State, step: Step)
    requires LocksOk(s) && Enabled(s, step)
    ensures LocksOk(Next(s, step))
  {
    match step
    case Starts(p) => OthersStayOk(s, Next(s, step), p);
    case Opens(p) => OpenKeepsLocks(s, p, s.procs[p].tries);
    case Locks(p) => LockKeepsLocks(s, p, s.procs[p].inode, s.procs[p].tries);
    case Compares(p) =>
      if s.path == Some(s.procs[p].inode) {
        HolderKeepsLocks(s, p, Confirmed(s.procs[p].inode), s.content, s.path);
      } else {
        DieKeepsLocks(s, p, Ready(s.procs[p].tries + 1));
        DieKeepsLocks(s, p, Gone);
      }
    case Dies(p) => DieKeepsLocks(s, p, Gone);
    case SomeoneElseUnlinks =>
      forall p | p in s.procs ensures ProcOk(Next(s, step), p, s.procs[p]) {
        assert ProcOk(s, p, s.procs[p]);
      }
    case _ => OwnerStepKeepsLocks(s, step);
  }

  lemma OwnerStepKeepsLocks(s: State, step: Step)
    requires LocksOk(s) && Enabled(s, step)
    requires step.Truncates? || step.Writes? || step.Publishes? || step.BeginsRelease? || step.ReadsBack? || step.Unlinks?
    ensures LocksOk(Next(s, step))
  {
    var p := step.p;
    var i := s.procs[p].inode;
    assert ProcOk(s, p, s.procs[p]);
    match step
    case Truncates(_) => HolderKeepsLocks(s, p, Truncated(i), s.content - {i}, s.path);
    case Writes(_) => HolderKeepsLocks(s, p, Written(i), s.content[i := p], s.path);
    case Publishes(_) => HolderKeepsLocks(s, p, Claimed(i), s.content, s.path);
    case BeginsRelease(_) => HolderKeepsLocks(s, p, Releasing(i), s.content, s.path);
    case ReadsBack(_) => HolderKeepsLocks(s, p, Unlinking(i), s.content, s.path);
    case Unlinks(_) => HolderKeepsLocks(s, p, Released(i), s.content, None);
  }

  /** Nobody is between its comparison and its unlink. */
  predicate Unowned(s: State) {
    forall p :: p in s.procs ==> !Owns(s.procs[p])
  }

  /** Whoever else unlinks the path does so while nobody owns it. */
  ghost predicate Undisturbed(s: State, steps: seq<Step>)
    decreases |steps|
  {
    steps == [] ||
    (&& Enabled(s, steps[0])
     && (steps[0].SomeoneElseUnlinks? ==> Unowned(s))
     && Undisturbed(Next(s, steps[0]), steps[1..]))
  }

  lemma StepKeepsPath(s: State, step: Step)
    requires LocksOk(s) && PathOk(s) && Enabled(s, step) && (step.SomeoneElseUnlinks? ==> Unowned(s))
    ensures PathOk(Next(s, step))
  {
  }

  lemma {:induction false} RunKeepsLocks(s: State, steps: seq<Step>, t: State)
    requires LocksOk(s) && Run(s, steps, t)
    ensures LocksOk(t)
    ensures PathOk(s) && Undisturbed(s, steps) ==> PathOk(t)
    decreases |steps|
  {
    if steps != [] {
      StepKeepsLocks(s, steps[0]);
      if PathOk(s) && Undisturbed(s, steps) {
        StepKeepsPath(s, steps[0]);
      }
      RunKeepsLocks(Next(s, steps[0]), steps[1..], t);
    }
  }

  // ---- Properties --------------------------------------------------------------------------

  /** However the processes interleave and wherever they die, at most one of them serves, the
      inode it has locked is the one the path names, and the file holds its pid. */
  lemma SingleInstance(steps: seq<Step>, t: State, p: Pid)
    requires Run(EMPTY, steps, t) && Undisturbed(EMPTY, steps)
    requires p in t.procs && t.procs[p].Claimed?
    ensures t.path == Some(t.procs[p].inode)
    ensures t.procs[p].inode in t.locks && t.locks[t.procs[p].inode] == p
    ensures t.procs[p].inode in t.content && t.content[t.procs[p].inode] == p
    ensures forall q :: q in t.procs && Owns(t.procs[q]) ==> q == p
  {
    RunKeepsLocks(EMPTY, steps, t);
    assert ProcOk(t, p, t.procs[p]);
    forall q | q in t.procs && Owns(t.procs[q]) ensures q == p {
      assert ProcOk(t, q, t.procs[q]);
    }
  }

  lemma OwnerIsAlone(steps: seq<Step>, t: State, p: Pid)
    requires Run(EMPTY, steps, t) && p in t.procs && t.procs[p].Claimed?
    ensures Undisturbed(EMPTY, steps) ==>
              && t.path == Some(t.procs[p].inode)
              && forall q :: q in t.procs && Owns(t.procs[q]) ==> q == p
  {
    if Undisturbed(EMPTY, steps) {
      SingleInstance(steps, t, p);
    }
  }

  /** Unlinking always hits the process's own file: nobody else's claim can be removed. */
  lemma ReleaseRemovesOwnFile(steps: seq<Step>, t: State, p: Pid)
    requires Run(EMPTY, steps, t) && Undisturbed(EMPTY, steps)
    requires p in t.procs && t.procs[p].Unlinking?
    ensures t.path == Some(t.procs[p].inode) && t.path.value in t.content && t.content[t.path.value] == p
    ensures forall q :: q in t.procs && Owns(t.procs[q]) ==> q == p
  {
    RunKeepsLocks(EMPTY, steps, t);
    assert ProcOk(t, p, t.procs[p]);
    forall q | q in t.procs && Owns(t.procs[q]) ensures q == p {
      assert ProcOk(t, q, t.procs[q]);
    }
  }

  /** A release that reaches the read finds its own pid, so it does remove the file. */
  lemma ReleaseFindsOwnPid(steps: seq<Step>, t: State, p: Pid)
    requires Run(EMPTY, steps, t) && p in t.procs && t.procs[p].Releasing?
    ensures Next(t, ReadsBack(p)).procs[p].Unlinking?
  {
    RunKeepsLocks(EMPTY, steps, t);
    assert ProcOk(t, p, t.procs[p]);
  }

  /** Whatever else happens to the path, at most one server holds the file it names; so two
      servers at once mean that someone else unlinked the file while a process owned it. */
  lemma OnlyInterferenceAdmitsTwo(steps: seq<Step>, t: State, p: Pid, q: Pid)
    requires Run(EMPTY, steps, t)
    requires p in t.procs && q in t.procs && p != q && Owns(t.procs[p]) && Owns(t.procs[q])
    ensures !Undisturbed(EMPTY, steps)
    ensures !(t.path == Some(t.procs[p].inode) && t.path == Some(t.procs[q].inode))
  {
    RunKeepsLocks(EMPTY, steps, t);
    assert ProcOk(t, p, t.procs[p]) && ProcOk(t, q, t.procs[q]);
  }

  /** The steps one process takes to claim the file. */
  function ClaimSteps(p: Pid): seq<Step> {
    [Opens(p), Locks(p), Compares(p), Truncates(p), Writes(p), Publishes(p)]
  }

  /** A file left behind by a crash never keeps a new server out: if nobody alive has the
      named inode locked, an undisturbed process claims it at its first attempt. */
  lemma StaleFileDoesNotBlock(steps: seq<Step>, s: State, p: Pid) returns (t: State)
    requires Run(EMPTY, steps, s) && p in s.procs && s.procs[p].Ready?
    requires s.path.Some? ==> s.path.value !in s.locks
    ensures Run(s, ClaimSteps(p), t) && p in t.procs && t.procs[p].Claimed?
  {
    RunKeepsLocks(EMPTY, steps, s);
    var a := Next(s, Opens(p));
    var b := Next(a, Locks(p));
    var c := Next(b, Compares(p));
    t := ConfirmedPublishes(c, p);
    var rest := [Truncates(p), Writes(p), Publishes(p)];
    RunCons(b, Compares(p), rest, t);
    RunCons(a, Locks(p), [Compares(p)] + rest, t);
    RunCons(s, Opens(p), [Locks(p)] + ([Compares(p)] + rest), t);
    assert ClaimSteps(p) == [Opens(p)] + ([Locks(p)] + ([Compares(p)] + rest));
  }

  lemma ConfirmedPublishes(c: State, p: Pid) returns (t: State)
    requires p in c.procs && c.procs[p].Confirmed?
    ensures Run(c, [Truncates(p), Writes(p), Publishes(p)], t) && p in t.procs && t.procs[p].Claimed?
  {
    var d := Next(c, Truncates(p));
    var e := Next(d, Writes(p));
    t := Next(e, Publishes(p));
    assert Run(t, [], t);
    RunCons(e, Publishes(p), [], t);
    RunCons(d, Writes(p), [Publishes(p)], t);
    RunCons(c, Truncates(p), [Writes(p), Publishes(p)], t);
  }

  lemma RunCons(s: State, step: Step, rest: seq<Step>, t: State)
    requires Enabled(s, step) && Run(Next(s, step), rest, t)
    ensures Run(s, [step] + rest, t)
  {
    assert ([step] + rest)[1..] == rest;
  }

  lemma {:induction false} RunConcat(s: State, a: seq<Step>, t: State, b: seq<Step>, u: State)
    requires Run(s, a, t) && Run(t, b, u)
    ensures Run(s, a + b, u)
    decreases |a|
  {
    if a == [] {
      assert a + b == b;
    } else {
      RunConcat(Next(s, a[0]), a[1..], t, b, u);
      RunCons(s, a[0], a[1..] + b, u);
      assert [a[0]] + (a[1..] + b) == a + b;
    }
  }

  predicate Concerns(step: Step, p: Pid) {
    !step.SomeoneElseUnlinks? && step.p == p
  }

  /** Processes only move by their own steps. */
  lemma {:induction false} RunKeepsOthers(s: State, steps: seq<Step>, t: State, p: Pid)
    requires Run(s, steps, t) && forall k :: 0 <= k < |steps| ==> !Concerns(steps[k], p)
    ensures p in t.procs <==> p in s.procs
    ensures p in s.procs ==> t.procs[p] == s.procs[p]
    decreases |steps|
  {
    if steps != [] {
      assert !Concerns(steps[0], p);
      RunKeepsOthers(Next(s, steps[0]), steps[1..], t, p);
    }
  }

  /** Nobody but p has moved. */
  ghost predicate OnlyMoved(s: State, t: State, p: Pid) {
    && (forall o :: o in t.procs && o != p ==> o in s.procs)
    && (forall o :: o in s.procs && o != p ==> o in t.procs && t.procs[o] == s.procs[o])
  }

  /** A run can always be extended by a process that starts and claims a free path. */
  lemma Launch(steps: seq<Step>, s: State, p: Pid) returns (more: seq<Step>, t: State)
    requires Run(EMPTY, steps, s) && p !in s.procs
    requires s.path.Some? ==> s.path.value !in s.locks
    ensures Run(EMPTY, steps + more, t) && p in t.procs && t.procs[p].Claimed?
    ensures SomeoneElseUnlinks !in more && OnlyMoved(s, t, p)
  {
    var ready := Next(s, Starts(p));
    assert Run(ready, [], ready);
    RunCons(s, Starts(p), [], ready);
    RunConcat(EMPTY, steps, s, [Starts(p)], ready);
    t := StaleFileDoesNotBlock(steps + [Starts(p)], ready, p);
    more := [Starts(p)] + ClaimSteps(p);
    RunConcat(s, [Starts(p)], ready, ClaimSteps(p), t);
    RunConcat(EMPTY, steps, s, more, t);
    forall o | o != p
      ensures o in t.procs <==> o in s.procs
      ensures o in s.procs ==> t.procs[o] == s.procs[o]
    {
      RunKeepsOthers(s, more, t, o);
    }
  }

  lemma RunSnoc(s: State, steps: seq<Step>, m: State, step: Step)
    requires Run(s, steps, m) && Enabled(m, step)
    ensures Run(s, steps + [step], Next(m, step))
  {
    assert Run(Next(m, step), [], Next(m, step));
    RunCons(m, step, [], Next(m, step));
    RunConcat(s, steps, m, [step], Next(m, step));
  }

  /** One call of p, appended to a run. */
  lemma Steps(steps: seq<Step>, s: State, step: Step) returns (n: State)
    requires Run(EMPTY, steps, s) && Enabled(s, step) && !step.SomeoneElseUnlinks?
    ensures n == Next(s, step) && Run(EMPTY, steps + [step], n) && OnlyMoved(s, n, step.p)
  {
    n := Next(s, step);
    RunSnoc(EMPTY, steps, s, step);
  }

  /** What is left to do until the process serves. */
  function ToClaim(phase: Phase): nat {
    if phase.Confirmed? then 3 else if phase.Truncated? then 2 else if phase.Written? then 1 else 0
  }

  function ClaimStep(p: Pid, phase: Phase): Step {
    if phase.Confirmed? then Truncates(p) else if phase.Truncated? then Writes(p) else Publishes(p)
  }

  /** An owner that has not begun to release goes on to serve. */
  lemma {:induction false} GoesOnToServe(steps: seq<Step>, s: State, p: Pid) returns (more: seq<Step>, t: State)
    requires Run(EMPTY, steps, s) && p in s.procs && (ToClaim(s.procs[p]) > 0 || s.procs[p].Claimed?)
    ensures Run(EMPTY, steps + more, t) && SomeoneElseUnlinks !in more
    ensures p in t.procs && t.procs[p].Claimed? && OnlyMoved(s, t, p)
    decreases ToClaim(s.procs[p])
  {
    if s.procs[p].Claimed? {
      more, t := [], s;
      assert steps + [] == steps;
    } else {
      var step := ClaimStep(p, s.procs[p]);
      var n := Steps(steps, s, step);
      var rest;
      rest, t := GoesOnToServe(steps + [step], n, p);
      more := [step] + rest;
      assert steps + more == steps + [step] + rest;
    }
  }

  /** A releasing owner removes whatever the path names. */
  lemma GoesOnToUnlink(steps: seq<Step>, s: State, p: Pid) returns (more: seq<Step>, t: State)
    requires Run(EMPTY, steps, s) && p in s.procs && (s.procs[p].Releasing? || s.procs[p].Unlinking?)
    ensures Run(EMPTY, steps + more, t) && SomeoneElseUnlinks !in more && t.path == None && OnlyMoved(s, t, p)
  {
    if s.procs[p].Unlinking? {
      t := Steps(steps, s, Unlinks(p));
      more := [Unlinks(p)];
    } else {
      ReleaseFindsOwnPid(steps, s, p);
      var n := Steps(steps, s, ReadsBack(p));
      t := Steps(steps + [ReadsBack(p)], n, Unlinks(p));
      more := [ReadsBack(p), Unlinks(p)];
      assert steps + more == steps + [ReadsBack(p)] + [Unlinks(p)];
    }
  }

  ghost predicate TwoServers(t: State) {
    exists a, b :: a in t.procs && b in t.procs && a != b && t.procs[a].Claimed? && t.procs[b].Claimed?
  }

  /** The general converse: unlink the path under any owner, in any reachable state, and fresh
      processes bring it to two servers without any further interference. */
  lemma OwnedUnlinkAdmitsTwo(steps: seq<Step>, s: State, p: Pid, q: Pid, r: Pid) returns (more: seq<Step>, t: State)
    requires Run(EMPTY, steps, s) && p in s.procs && Owns(s.procs[p])
    requires q !in s.procs && r !in s.procs && q != r
    ensures Run(EMPTY, steps + [SomeoneElseUnlinks] + more, t) && SomeoneElseUnlinks !in more
    ensures TwoServers(t)
  {
    RunSnoc(EMPTY, steps, s, SomeoneElseUnlinks);
    var before := steps + [SomeoneElseUnlinks];
    var first, m := Launch(before, Next(s, SomeoneElseUnlinks), q);
    if s.procs[p].Releasing? || s.procs[p].Unlinking? {
      var gone, n := GoesOnToUnlink(before + first, m, p);
      var second;
      second, t := Launch(before + first + gone, n, r);
      more := first + gone + second;
      assert before + more == before + first + gone + second;
      assert t.procs[q].Claimed? && t.procs[r].Claimed?;
    } else {
      var second;
      second, t := GoesOnToServe(before + first, m, p);
      more := first + second;
      assert before + more == before + first + second;
      assert t.procs[p].Claimed? && t.procs[q].Claimed?;
    }
  }

  lemma {:induction false} QuietIsUndisturbed(s: State, steps: seq<Step>, t: State)
    requires Run(s, steps, t) && SomeoneElseUnlinks !in steps
    ensures Undisturbed(s, steps)
    decreases |steps|
  {
    if steps != [] {
      QuietIsUndisturbed(Next(s, steps[0]), steps[1..], t);
    }
  }

  /** Left alone afterwards, the processes never come to two servers exactly if nobody owned the
      path when it was unlinked. */
  lemma UnlinkIsHarmlessExactly(steps: seq<Step>, s: State, q: Pid, r: Pid)
    requires Run(EMPTY, steps, s) && Undisturbed(EMPTY, steps)
    requires q !in s.procs && r !in s.procs && q != r
    ensures Unowned(s) <==>
            forall more, t :: Run(Next(s, SomeoneElseUnlinks), more, t) && SomeoneElseUnlinks !in more ==> !TwoServers(t)
  {
    var n := Next(s, SomeoneElseUnlinks);
    RunKeepsLocks(EMPTY, steps, s);
    if Unowned(s) {
      StepKeepsLocks(s, SomeoneElseUnlinks);
      forall more, t | Run(n, more, t) && SomeoneElseUnlinks !in more ensures !TwoServers(t) {
        QuietIsUndisturbed(n, more, t);
        RunKeepsLocks(n, more, t);
        OwnersAreOne(t);
      }
    } else {
      var p :| p in s.procs && Owns(s.procs[p]);
      var more, t := OwnedUnlinkAdmitsTwo(steps, s, p, q, r);
      var rest := [SomeoneElseUnlinks] + more;
      assert steps + [SomeoneElseUnlinks] + more == steps + rest;
      RunSplits(EMPTY, steps, s, rest, t);
      assert rest[1..] == more && rest[0] == SomeoneElseUnlinks;
    }
  }

  lemma OwnersAreOne(t: State)
    requires LocksOk(t) && PathOk(t)
    ensures !TwoServers(t)
  {
    forall a, b | a in t.procs && b in t.procs && t.procs[a].Claimed? && t.procs[b].Claimed? ensures a == b {
      assert ProcOk(t, a, t.procs[a]) && ProcOk(t, b, t.procs[b]);
    }
  }

  /** A run is its first part and the rest. */
  lemma {:induction false} RunSplits(s: State, a: seq<Step>, m: State, b: seq<Step>, t: State)
    requires Run(s, a, m) && Run(s, a + b, t)
    ensures Run(m, b, t)
    decreases |a|
  {
    if a == [] {
      assert a + b == b;
    } else {
      assert (a + b)[1..] == a[1..] + b;
      RunSplits(Next(s, a[0]), a[1..], m, b, t);
    }
  }

  lemma OthersLeave(s: State, step: Step, p: Pid)
    requires Enabled(s, step) && !Concerns(step, p)
    ensures p in s.procs ==> p in Next(s, step).procs && Next(s, step).procs[p] == s.procs[p]
  {
  }

  // ---- What each call does -------------------------------------------------------------------------

  /** The locks of everybody else are as before. */
  ghost predicate OthersLocked(s: State, t: State, p: Pid) {
    forall i :: (i in s.locks && s.locks[i] != p) || (i in t.locks && t.locks[i] != p) ==>
      i in s.locks && i in t.locks && s.locks[i] == t.locks[i]
  }

  ghost predicate HoldsNothing(t: State, p: Pid) {
    forall i :: i in t.locks ==> t.locks[i] != p
  }

  predicate SomebodyHolds(s: State, p: Pid, i: Inode) {
    i in s.locks && s.locks[i] != p && s.locks[i] in s.procs && HoldsLock(s.procs[s.locks[i]])
    && s.procs[s.locks[i]].inode == i
  }

  /** Opening gets the file the path names, and creates one nobody has open if it names none. */
  lemma OpenDecides(steps: seq<Step>, s: State, p: Pid)
    requires Run(EMPTY, steps, s) && Enabled(s, Opens(p))
    ensures var t := Next(s, Opens(p));
            && t.path.Some? && t.procs == s.procs[p := Opened(t.path.value, s.procs[p].tries)]
            && (s.path.Some? ==> t.path == s.path)
            && (s.path.None? ==> forall q :: q in s.procs && (s.procs[q].Opened? || HoldsLock(s.procs[q])) ==>
                                   s.procs[q].inode != t.path.value)
            && t.locks == s.locks && t.content == s.content
  {
    RunKeepsLocks(EMPTY, steps, s);
    forall q | q in s.procs && (s.procs[q].Opened? || HoldsLock(s.procs[q])) ensures s.procs[q].inode < s.nextInode {
      assert ProcOk(s, q, s.procs[q]);
    }
  }

  /** The lock is taken unless another process that is still there has it: then this one is gone. */
  lemma LockDecides(steps: seq<Step>, s: State, p: Pid)
    requires Run(EMPTY, steps, s) && Enabled(s, Locks(p))
    ensures var t := Next(s, Locks(p));
            var i := s.procs[p].inode;
            && t.path == s.path && t.content == s.content && OthersLocked(s, t, p)
            && if SomebodyHolds(s, p, i) then t.procs == s.procs[p := Gone] && HoldsNothing(t, p)
               else t.procs == s.procs[p := Locked(i, s.procs[p].tries)] && i in t.locks && t.locks[i] == p
  {
    RunKeepsLocks(EMPTY, steps, s);
    assert ProcOk(s, p, s.procs[p]);
  }

  /** The file is kept if the path still names it; otherwise it is closed, which frees its lock,
      and the next attempt begins, or the last has failed. */
  lemma CompareDecides(steps: seq<Step>, s: State, p: Pid)
    requires Run(EMPTY, steps, s) && Enabled(s, Compares(p))
    ensures var t := Next(s, Compares(p));
            var i := s.procs[p].inode;
            && t.path == s.path && t.content == s.content && OthersLocked(s, t, p)
            && if s.path == Some(i) then
                 t.procs == s.procs[p := Confirmed(i)] && i in t.locks && t.locks[i] == p
               else
                 && HoldsNothing(t, p)
                 && t.procs == s.procs[p := if Comparisons(steps, p) < 4 then Ready(Comparisons(steps, p) + 1) else Gone]
  {
    RunKeepsLocks(EMPTY, steps, s);
    assert ProcOk(s, p, s.procs[p]);
    AttemptsAreCounted(EMPTY, steps, s, p, 0);
  }

  /** A claimed file goes from empty to the pid; a release that finds its pid takes the path away.
      Whatever an owner does, no lock changes hands. */
  lemma OwnerDecides(steps: seq<Step>, s: State, step: Step)
    requires Run(EMPTY, steps, s) && Enabled(s, step) && !step.SomeoneElseUnlinks? && Is(s, step.p) && Owns(s.procs[step.p])
    requires !step.Dies?
    ensures var t := Next(s, step);
            var p := step.p;
            var i := s.procs[p].inode;
            && t.locks == s.locks && p in t.procs && t.procs == s.procs[p := t.procs[p]]
            && HoldsLock(t.procs[p]) && t.procs[p].inode == i
            && match s.procs[p]
               case Confirmed(_) => t.procs[p].Truncated? && t.content == s.content - {i} && t.path == s.path
               case Truncated(_) => t.procs[p].Written? && t.content == s.content[i := p] && t.path == s.path
               case Written(_) => t.procs[p].Claimed? && t.content == s.content && t.path == s.path
               case Claimed(_) => t.procs[p].Releasing? && t.content == s.content && t.path == s.path
               case Releasing(_) => t.procs[p].Unlinking? && t.content == s.content && t.path == s.path
               case _ => t.procs[p].Released? && t.content == s.content && t.path.None?
  {
    RunKeepsLocks(EMPTY, steps, s);
    assert ProcOk(s, step.p, s.procs[step.p]);
  }

  /** A process that dies gives up its locks, and nothing else: its file may stay behind. */
  lemma DeathDecides(s: State, p: Pid)
    requires Enabled(s, Dies(p))
    ensures var t := Next(s, Dies(p));
            && t.procs == s.procs[p := Gone] && HoldsNothing(t, p) && OthersLocked(s, t, p)
            && t.path == s.path && t.content == s.content
  {
  }

  function Comparisons(steps: seq<Step>, p: Pid): nat
    decreases |steps|
  {
    if steps == [] then 0 else (if steps[0] == Compares(p) then 1 else 0) + Comparisons(steps[1..], p)
  }

  predicate Attempting(phase: Phase) {
    phase.Ready? || phase.Opened? || phase.Locked?
  }

  predicate Counted(s: State, p: Pid, n: nat) {
    if p in s.procs then Attempting(s.procs[p]) ==> s.procs[p].tries == n && n < ATTEMPTS else n == 0
  }

  /** A process has made as many attempts as it has compared: there is no other way back to the
      start, and it never makes a sixth. */
  lemma {:induction false} AttemptsAreCounted(s: State, steps: seq<Step>, t: State, p: Pid, n: nat)
    requires Run(s, steps, t) && Counted(s, p, n)
    ensures Counted(t, p, n + Comparisons(steps, p))
    decreases |steps|
  {
    if steps != [] {
      AttemptsAreCounted(Next(s, steps[0]), steps[1..], t, p, if steps[0] == Compares(p) then n + 1 else n);
    }
  }

  /** A process gives up exactly if another one has the lock, or its fifth comparison has failed. */
  lemma GivesUpExactly(steps: seq<Step>, s: State, step: Step)
    requires Run(EMPTY, steps, s) && Enabled(s, step) && !step.SomeoneElseUnlinks? && !step.Dies?
    ensures var p := step.p;
            p in Next(s, step).procs &&
            (Next(s, step).procs[p].Gone? <==>
              || (step.Locks? && SomebodyHolds(s, p, s.procs[p].inode))
              || (step.Compares? && s.path != Some(s.procs[p].inode) && Comparisons(steps + [step], p) == 5))
  {
    if step.Locks? {
      LockDecides(steps, s, step.p);
    } else if step.Compares? {
      CompareDecides(steps, s, step.p);
      ComparisonsSnoc(steps, step, step.p);
      AttemptsAreCounted(EMPTY, steps, s, step.p, 0);
    }
  }

  lemma {:induction false} ComparisonsSnoc(steps: seq<Step>, step: Step, p: Pid)
    ensures Comparisons(steps + [step], p) == Comparisons(steps, p) + (if step == Compares(p) then 1 else 0)
    decreases |steps|
  {
    if steps == [] {
      assert [step][1..] == [];
    } else {
      assert (steps + [step])[1..] == steps[1..] + [step];
      ComparisonsSnoc(steps[1..], step, p);
    }
  }

  /** The machine the processes share. `steps` is the history of system calls. */
  class Machine {
    var state: State
    ghost var steps: seq<Step>

    ghost predicate Valid()
      reads this
    {
      Run(EMPTY, steps, state)
    }

    constructor ()
      ensures Valid() && steps == []
    {
      state, steps := EMPTY, [];
    }

    method Do(step: Step)
      requires Valid() && Enabled(state, step)
      modifies this
      ensures Valid() && state == Next(old(state), step) && steps == old(steps) + [step]
    {
      RunSnoc(EMPTY, steps, state, step);
      state := Next(state, step);
      steps := steps + [step];
    }

    /** Whatever others attempt while p is between two calls. */
    method Others(p: Pid, attempts: seq<Step>)
      requires Valid() && p in state.procs
      modifies this
      ensures Valid() && p in state.procs && state.procs[p] == old(state.procs[p])
    {
      for i := 0 to |attempts|
        invariant Valid() && p in state.procs && state.procs[p] == old(state.procs[p])
      {
        if Enabled(state, attempts[i]) && !Concerns(attempts[i], p) {
          OthersLeave(state, attempts[i], p);
          Do(attempts[i]);
        }
      }
    }

    /** One pass of the loop: open, lock, compare. */
    method Attempt(p: Pid, tries: nat, others: nat -> seq<Step>)
      requires Valid() && p in state.procs && state.procs[p] == Ready(tries)
      modifies this
      ensures Valid() && p in state.procs
      ensures state.procs[p].Confirmed? || state.procs[p].Gone? ||
              (tries + 1 < ATTEMPTS && state.procs[p] == Ready(tries + 1))
    {
      Others(p, others(0));
      Do(Opens(p));
      Others(p, others(1));
      Do(Locks(p));
      if state.procs[p].Gone? {
        return;
      }
      Others(p, others(2));
      Do(Compares(p));
    }

    /** `_claim_pid_file`: whatever the others do in between, after at most ATTEMPTS passes the
        process serves, alone and with its pid in the file, or it is gone and holds nothing. */
    method ClaimPidFile(p: Pid, others: (nat, nat) -> seq<Step>) returns (claimed: bool)
      requires Valid() && p in state.procs && state.procs[p] == Ready(0)
      modifies this
      ensures Valid() && p in state.procs
      ensures claimed ==> state.procs[p].Claimed?
      ensures !claimed ==> state.procs[p].Gone? && forall i :: i in state.locks ==> state.locks[i] != p
      ensures claimed && Undisturbed(EMPTY, steps) ==>
                && state.path == Some(state.procs[p].inode)
                && forall q :: q in state.procs && Owns(state.procs[q]) ==> q == p
    {
      var tries := 0;
      while tries < ATTEMPTS && state.procs[p].Ready?
        invariant Valid() && p in state.procs
        invariant state.procs[p] == Ready(tries) || state.procs[p].Confirmed? || state.procs[p].Gone?
        invariant tries <= ATTEMPTS && (tries == ATTEMPTS ==> !state.procs[p].Ready?)
        decreases ATTEMPTS - tries, state.procs[p].Ready?
      {
        Attempt(p, tries, (k: nat) => others(tries, k));
        tries := tries + 1;
      }
      if state.procs[p].Gone? {
        RunKeepsLocks(EMPTY, steps, state);
        return false;
      }
      Others(p, others(tries, 3));
      Do(Truncates(p));
      Others(p, others(tries, 4));
      Do(Writes(p));
      Others(p, others(tries, 5));
      Do(Publishes(p));
      OwnerIsAlone(steps, state, p);
      return true;
    }

    /** `_release_pid_file`. */
    method ReleasePidFile(p: Pid, others: nat -> seq<Step>)
      requires Valid() && p in state.procs && state.procs[p].Claimed?
      modifies this
      ensures Valid() && p in state.procs && state.procs[p] == Released(old(state.procs[p]).inode)
    {
      Do(BeginsRelease(p));
      Others(p, others(0));
      Do(ReadsBack(p));
      if state.procs[p].Unlinking? {
        Others(p, others(1));
        Do(Unlinks(p));
      }
    }
  }
}
