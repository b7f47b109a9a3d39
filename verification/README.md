# wterm server: verified models

wterm serves terminal sessions (claude, codex or a shell, local or over ssh) to browsers over
WebSockets. One asyncio event loop runs everything, so what happens between two `await`s is
atomic and the difficulty lies in how such segments interleave. Each module below models one
part of the server as a state, the segments that change it, and the runs they can form in any
order; an invariant is proved for every segment, and the promises are theorems about every run.
Where the code keeps its state in an object, a class with the same fields performs the segments
and each of its methods is proved to do exactly what the specification function of the segment
says; what that is worth is stated again on the states before and after it, in the lemmas named
`...Decides`.

| files | part of the server |
|---|---|
| `Outbound*.dfy` | PTY output: replay buffer, per-socket queue, writer tasks, backpressure, hand-over between sockets, cancelled ends, and what each segment does |
| `PtyInput.dfy`, `Utf8.dfy` | input: a bounded buffer before a PTY that takes any number of bytes |
| `Termination.dfy` | the end of one session: overlapping `terminate` calls, natural exit, the child |
| `Lifecycle*.dfy`, `SessionManager.dfy` | all sessions and tasks: ownership under per-key locks, that no living session is forgotten, and that a condemned one goes |
| `IdleCountdown.dfy` | the idle timer |
| `ShellSyntax.dfy`, `RemoteCommand.dfy` | the remote command string and the shell that reads it back |
| `PidFile.dfy` | the single-instance lock, any number of processes |
| `TokenStore.dfy`, `Revocation.dfy`, `LoginBackoff.dfy` | login tokens, closing of revoked sockets, login throttle |
| `StatusHub.dfy` | the project status broadcaster |

The operating system, the network and other people are parameters or nondeterministic steps:
short writes, EAGAIN, EIO, sends that return or raise, children that die or do not, cancelled
tasks, crashed processes, the order in which anything runs. Fields called a trace record history
for the statements and are never read by the modelled code.

Five results are worth knowing beside the promises; the first four come with runs that show them
and with the exact condition:

* An end or idle expiry that is cancelled while it waits for its close leaves the session alive,
  without a socket, and its writer active. The next `attach` then adds a second active writer, and a
  direct close of the first socket may be followed by frames on it
  (`OutboundHandOver.CancelledEndLeavesTwo`, `CancelledEndAllowsFrames`). At most one writer is active
  exactly if no `attach` finds a session without a socket but with an active writer
  (`HandOverExactly`), and a frame may follow a close exactly if the writer is neither cancelled nor
  finished nor sending the close itself (`FrameAfterCloseExactly`).
* A route that is cancelled while `attach` waits for the replay leaves a living session without
  socket and without grace countdown (`LifecycleCare.CancelledAttachForgets`). A cancellation forgets
  a session exactly if no other detach or countdown of it is pending and no other task that is busy
  with it holds its lock (`ForgetsUnlessCovered`); tasks that are stopping a writer survive one.
* The status hub forgets a trigger whose snapshot raises (`StatusHub.RaiseLosesTrigger`,
  `RaiseLeavesStale`). Subscribers agree exactly if none of them joined by such a trigger since the
  last broadcast began, and the last payload was read after every notice exactly if no such trigger
  was newer than it (`AgreementExactly`, `FreshnessExactly`).
* An unlink of the pid file by somebody else, such as the `rm -f` of start.sh and stop.sh, is harmless
  exactly if no process owns the path at that moment; otherwise two servers can run
  (`PidFile.UnlinkIsHarmlessExactly`, `OwnedUnlinkAdmitsTwo`).
* `ChildProcessError` is never raised by the server's own waits (`Termination.OverlappingTermination`):
  no call waits for the child after it was reaped.

## Model

| member | source | states |
|---|---|---|
| OutboundTheorems.StreamContinuity | server/session.py:389-408 | in every run the replay buffer is exactly the last 256 KiB of output, and what any socket has been sent is a prefix of (last 256 KiB at its attach) followed by all later output; while attached, sent and queued together are all of it |
| OutboundTheorems.HandOver | server/session.py:671-701 | the pending counter is the sum over all unfinished writers, queued and in flight; an attached socket owns the queue and no other writer of it is active; a former writer that is still active has the close of its socket queued or in flight |
| OutboundHandOver.HandOverExactly | server/session.py:671-689 | in every run: at most one writer is ever active, exactly if every attach that finds the session without a socket also finds its writer cancelled or finished |
| OutboundHandOver.CancelledEndLeavesTwo | server/session.py:786-801 | a concrete run in which an end is cancelled during its farewell and the next attach adds a second active writer |
| OutboundTheorems.LateFinisher | server/session.py:500-516 | a writer that ends after it was replaced leaves its successor's queue, task, socket, frames and futures untouched |
| OutboundTheorems.Backpressure | server/session.py:410-445 | registered and paused exclude each other; registered only below the high mark; paused only above the low mark and while some writer holds bytes and can act |
| OutboundTheorems.BacklogBound | server/session.py:432-445 | with u unfinished writers pending is at most high mark + one read - 1 + (u-1) replays, and 0 with none |
| OutboundTheorems.WritersRunDry | server/session.py:461-516 | writers left to themselves end: a run of writer segments is no longer than the work queued |
| OutboundTheorems.NoLostResume | server/session.py:483-512 | when no writer can act, the reader of a live session is registered: a pause is never forgotten |
| OutboundTheorems.FrameOrder | server/session.py:466-493 | frames are begun in the order they were queued, one at a time, and none after a close |
| OutboundHandOver.NoSendAfterClose | server/session.py:526-551 | once any task has begun to close a socket, no later step of any run begins a frame on it (section 5.5.1 of RFC 6455), if every attach so far that found no socket found no active writer either |
| OutboundHandOver.FrameAfterCloseExactly | server/session.py:542-551 | in any reachable state, a socket whose close has begun may still get a frame exactly if its writer is neither cancelled nor finished nor sending the close itself |
| OutboundHandOver.QuietStaysQuiet | server/session.py:461-516 | a writer that is cancelled, finished or sending its close begins no further frame in any continuation |
| OutboundHandOver.CancelledEndAllowsFrames | server/session.py:542-551 | a concrete run in which a direct close after a cancelled end is followed by a frame |
| OutboundTheorems.ResolvedOnce | server/session.py:489-490 | a completion future that is resolved never changes again in any run |
| OutboundTheorems.OutcomeMeansSent | server/session.py:489-510 | a future is true exactly when its frame's send returned, and resolved at the latest when its writer ends, by success, error, cancellation or drain |
| OutboundTheorems.AttachDoesNotHang | server/session.py:690-701 | the untimed wait for the replay can go on once the writer has ended |
| OutboundSteps.StepKeepsInv | server/session.py:389-551 | each of the 20 segments, cancelled ends included, keeps the whole output invariant |
| OutboundSession.Session.RunSegment | server/session.py:389-551 | the object performs any enabled segment exactly as specified and keeps the invariant |
| OutboundSession.Session.PausePtyReader | server/session.py:410-419 | pausing unregisters once and never after the fd is closed |
| OutboundSession.Session.ResumePtyReader | server/session.py:421-430 | resuming registers only for a live session and always ends the pause |
| OutboundSession.Session.EnqueueOutbound | server/session.py:432-445 | charges and queues a frame for the current socket, pauses at the high mark, and answers with its future |
| OutboundSession.Session.OnPtyReadable | server/session.py:389-408 | a read grows the buffer and the attached socket's queue; EOF schedules the exit |
| OutboundSession.Session.DrainQueue | server/session.py:500-510 | the drain loop uncharges every queued payload and resolves exactly this writer's pending futures as unsent |
| OutboundSession.Session.WriterSent | server/session.py:482-493 | a send that returned is uncharged, may resume the reader, resolves its future, and after a close ends the writer |
| OutboundSession.Session.WriterAborts | server/session.py:482-516 | a send that raised or was cancelled ends the writer through both `finally` blocks |
| OutboundSession.Session.StopOutboundWriter | server/session.py:518-524 | cancels the writer only if it serves this socket |
| OutboundSession.Session.InstallSocket | server/session.py:683-692 | publishes socket, queue and writer and queues the replay in one segment |
| OutboundSession.Session.AttachBegin | server/session.py:671-692 | takes the previous socket off first, if there is one |
| OutboundSession.Session.CancelAttach | server/session.py:690-701 | a cancelled attach lets go of its socket unless it has been replaced |
| OutboundSession.Session.CloseAttached | server/session.py:542-551 | an outside close goes through the socket's writer, or directly if it has none |
| OutboundSession.Session.HandleExit | server/session.py:553-568 | performs the segment of a child's exit, whose effect ExitSaysFarewell gives: fd closed, socket taken off, exit frame and then close 1000 queued for it |
| OutboundSession.Session.NotifyEnd | server/session.py:786-801 | performs the segment of an end or idle expiry, whose effect EndSaysFarewell gives: socket taken off, message and then close queued for it |
| OutboundEffects.ExitSaysFarewell | server/session.py:553-568 | a child's exit in any reachable state leaves the session dead, its fd closed and without a socket; exactly the exit text and then a close 1000, with an open future, are added to the queue of the attached socket's writer, and every other writer is as before |
| OutboundEffects.EndSaysFarewell | server/session.py:786-801 | the same for an end or an idle expiry, with any text, code and reason; the session lives on until it is terminated |
| OutboundEffects.TerminateDecides | server/session.py:625-667 | the end of a termination leaves the session dead, its fd closed, no callback registered, and no queue touched |
| OutboundEffects.CloseDecides | server/session.py:542-551 | a close asked for from outside is queued last for the session's own socket, with an open future, and goes directly to any other socket |
| OutboundEffects.TimeoutDecides | server/session.py:526-540 | a close that is not sent in time cancels the writer exactly if it is the session's and serves that socket |
| OutboundEffects.AttachDecides | server/session.py:671-692 | attach to a free session gives the socket a fresh writer whose only frame is the whole replay buffer, awaited, or nothing to wait for; with a previous socket it takes that off and cancels its writer first |
| OutboundEffects.AttachGoesOn | server/session.py:677-701 | it then closes the previous socket, then installs its own, and returns only when the replay's future is resolved |
| OutboundEffects.CancelledAttachDecides | server/session.py:693-701 | a cancelled replay wait gives the future up, lets go of its own socket only, and cancels that socket's writer only |
| OutboundEffects.DetachDecides | server/session.py:703-708 | detach lets go of its own socket and cancels its writer, and does nothing for a socket that was replaced |
| OutboundEffects.ReplacementDecides | server/session.py:934-949 | a replacement takes the socket away, cancels its writer and may then close the socket directly |
| OutboundEffects.ReadDecides | server/session.py:389-408 | output is remembered, and queued last exactly for an attached socket; EOF unregisters and schedules the exit; would-block does nothing |
| OutboundEffects.SentDecides | server/session.py:466-493 | a send that returned resolves its future true; after a close the writer is finished and forgotten, otherwise it waits with its queue intact |
| OutboundEffects.FailureDecides | server/session.py:482-516 | a writer that fails or is cancelled is finished with an empty queue, all its open futures false and no other future or writer changed |
| PtyInput.InputFidelity | server/session.py:805-855 | in every run the bytes taken by the PTY followed by the buffer are the UTF-8 of the accepted messages in order; with an empty buffer a strict decoder reads exactly that text; the buffer is bounded; the fd writer is registered exactly while bytes wait |
| PtyInput.DropFlagIsHistory | server/session.py:826-829 | the drop flag says whether something was dropped since the buffer was last empty |
| PtyInput.MessageDecides | server/session.py:822-833 | a message to a dead session changes nothing, one that would overfill 1 MiB is dropped whole with nothing else touched, and any other is accepted whole and offered to the PTY at once together with all that waits |
| PtyInput.FlushDecides | server/session.py:835-855 | a flush sends exactly as many waiting bytes as the PTY has room for, discards the rest exactly if it then fails, and lowers the drop flag exactly when nothing waits |
| PtyInput.DrainExactly | server/session.py:838-846 | the number of bytes taken is the smaller of what waits and what the writes offer |
| PtyInput.CleanupDecides | server/session.py:573-594 | after the cleanup nothing waits and nothing is registered; a second one changes nothing |
| PtyInput.InputBuffer.WriteInput | server/session.py:805-833 | a message is taken whole or not at all; True exactly at the first drop since the buffer was last empty |
| PtyInput.InputBuffer.FlushWrite | server/session.py:835-855 | writes until empty, blocked or failed; a failure discards the rest |
| PtyInput.WriteOut | server/session.py:838-846 | the write loop takes and leaves what the kernel's answers say, losing nothing unless a write fails |
| PtyInput.InputBuffer.CleanupFd | server/session.py:573-594 | closing discards the input and unregisters the writer |
| Utf8.RoundTrip | server/session.py:826 | the encoding of the input text is read back by a decoder that refuses stray and missing continuation bytes, overlong forms, surrogates and values beyond U+10FFFF (sections 3 and 4 of RFC 3629) |
| Utf8.OnlyEncoding | server/session.py:826 | whatever that decoder accepts is the encoding of what it reads, so a text has exactly one encoding |
| Utf8.AsciiIsItself | server/session.py:826 | ASCII text is encoded byte for byte |
| Utf8.EncodeConcat | server/session.py:826-831 | encoding message by message is encoding the concatenation, so no character is split |
| Termination.OverlappingTermination | server/session.py:573-667 | for any number of calls and the natural exit: the child is reaped at most once and never waited for again, the fd is closed exactly once when the session dies, no callback stays on it, every call's signals are a prefix of HUP, TERM, KILL, and a dead session's child is reaped or a call has escalated through all 110 polls |
| Termination.ExactlyOneNotification | server/session.py:553-571 | liveness falls at most once per session and each fall is notified exactly once, at once or when the exit has seen its socket off |
| Termination.CallsEnd | server/session.py:609-667 | each call is resumed at most 110 times after 0.1 s and has returned by then, however many run in parallel |
| Termination.TerminatingIsAttended | server/session.py:648-667 | a session alive but terminating still has a call at work, and a call that returned left it dead |
| Termination.SignalsOnTime | server/session.py:656-665 | in every run a call has sent SIGHUP at once, SIGTERM exactly if it went on after 20 sleeps and SIGKILL exactly if it went on after 100 |
| Termination.TerminateDecides | server/session.py:648-657 | a call on a dead session sends nothing; on a living one it marks it, notifies exactly if it is the first, sends SIGHUP, and sleeps if the child runs or else reaps it and finishes the session |
| Termination.ResumeDecides | server/session.py:609-667 | a call after a sleep returns if the session is over, reaps a dead child and finishes the session, sleeps on while the child runs, and after 110 sleeps finishes the session anyway; it touches no other call |
| Termination.ExitDecides | server/session.py:553-571 | the natural exit of a living session reaps, closes and unregisters at once and notifies exactly once unless a call has, after the socket if one is attached; on a dead session it does nothing |
| Termination.EofDecides | server/session.py:389-400 | EOF unregisters the reader and schedules one exit handler |
| Termination.CallsPlayTheLoops | server/session.py:609-623 | in every interleaving each call does what the sequential loops do on what it saw |
| Termination.TerminateLoop | server/session.py:656-665 | the escalation as straight code sends and sleeps as specified |
| Termination.WaitReaped | server/session.py:609-623 | polls up to the stage's limit and stops at the first look that sees the end |
| Termination.Session.TerminateBegins | server/session.py:648-657 | the first call marks and notifies, every call signals and looks |
| Termination.Session.TerminateResumes | server/session.py:609-667 | a call after its sleep: look, escalate or finish |
| Termination.Session.HandleExit | server/session.py:553-571 | the natural exit clears, closes and reaps unless a call did |
| Termination.Session.CleanupFd | server/session.py:573-594 | unregisters both callbacks and closes the fd, once |
| Lifecycle.Ownership | server/session.py:903-972 | in every run a session alive and not terminating is the one registered under its key, and the only such one |
| Lifecycle.GetLiveAnswers | server/session.py:903-916 | the map answers truthfully for every key: none exactly when no live session has it |
| Lifecycle.ChosenSessionStays | server/main.py:414-418 | from the check to the end of attach the chosen session is not terminating and nobody else is inside its key's lock |
| Lifecycle.TerminatingIsAlone | server/session.py:990-1008 | a terminating session has no socket and at most one task is terminating it |
| Lifecycle.GraceDecides | server/session.py:990-999 | grace expiry terminates exactly a registered, living session without a socket and otherwise changes nothing |
| Lifecycle.OldTasksSpareSuccessor | server/session.py:717-731 | no timer, detach or termination of one session touches another session or an entry that names it |
| Lifecycle.SocketsAreExclusive | server/session.py:683-706 | a socket is attached to at most one session, by the task that serves it |
| Lifecycle.LookupStaysVacant | server/main.py:427-470 | during the history lookup nobody starts a session under the key, so the start replaces nothing |
| Lifecycle.NoDeadlock | server/session.py:897-901 | every unfinished task can run or waits for a lock whose holder can |
| Lifecycle.StepKeepsInv | server/session.py:897-1008 | each segment, exit, unlocked look and cancellation keeps the ownership invariant |
| LifecycleEffects.EndDecides | server/session.py:974-988 | an end that has the lock of a key with a live session x: x loses its countdown and its socket; with a socket the task sees it off, without one x is marked and being terminated; every other session, entry, task and lock is as before |
| LifecycleEffects.EndFindsNobody | server/session.py:974-981 | without a live session it changes no session and frees the lock |
| LifecycleEffects.IdleDecides | server/session.py:1001-1008 | idle expiry dismisses exactly a registered living session, seeing its socket off first if it has one, and otherwise changes nothing |
| LifecycleEffects.ReattachDecides | server/main.py:414-418 | a route that finds a live session stops its countdown and attaches, taking a previous socket off first |
| LifecycleEffects.ReplaceDecides | server/main.py:414-472 | mode "new" on a live session takes its countdown and socket and terminates it, to start another |
| LifecycleEffects.VacantDecides | server/main.py:419-472 | a route that finds no live session looks up the history or starts one at once: last, registered, attached to its socket, with an idle countdown, lock free |
| LifecycleEffects.ErrandDecides | server/session.py:677-682 | a task that sees a socket off stops the writer, then closes, then attaches its own socket or terminates the session - or finishes at once if the child has exited meanwhile |
| LifecycleEffects.TerminationDecides | server/session.py:934-972 | a finished termination leaves its session dead and off the map, the lock free, or under a replacement a new live session under the key, which get_live then finds |
| LifecycleEffects.DisconnectDecides | server/session.py:703-706 | a route whose socket is still the session's takes it off; one that was replaced changes nothing |
| LifecycleEffects.CountdownStarts | server/session.py:707-710 | the end of detach leaves a living session with a fresh grace countdown and a dead one without, cancelled or not |
| LifecycleEffects.CountdownFires | server/session.py:717-731 | a countdown that is over waits for its session's lock, and a grace countdown is no longer the session's |
| LifecycleEffects.CancelDecides | server/session.py:693-701 | a cancelled task that is stopping a writer goes on, one being attached or attached lets go of its own socket only, and any other ends and frees its lock |
| LifecycleEffects.ExitDecides | server/session.py:553-568 | a child's exit leaves its session dead without a socket and its entry in place; an unlocked look forgets exactly a dead entry |
| LifecycleEffects.CondemnedIsGone | server/session.py:934-1008 | once an end, a replacement, a grace or an idle expiry has condemned a session under the lock, it is dead and off the map after at most four more turns of that task if that is not cancelled, whatever else runs, and stays so |
| LifecycleEffects.NothingReturns | server/session.py:625-667 | over any stretch of a run no session comes back to life, no termination is taken back and no entry of an old session returns |
| LifecycleCare.CareExactly | server/session.py:671-731 | in every run: at every moment each living session without a socket has a task that arms or expires its countdown, attaches or ends it, exactly if no cancellation hits the last such task |
| LifecycleCare.NobodyIsForgotten | server/session.py:671-731 | in such runs that task exists and can run unless it waits for its key's lock, and a terminating session is still being ended |
| LifecycleCare.ForgetsUnlessCovered | server/session.py:690-731 | cancelling a task that is busy with a living session forgets it exactly if no other detach or countdown is pending and the lock's holder is not busy with it |
| LifecycleCare.CancelledAttachForgets | server/session.py:694-701 | a concrete run in which a cancelled attach leaves a living session to nobody but its idle countdown |
| SessionManager.Manager.CancelGrace | server/session.py:712-715 | a countdown that still sleeps is over, and the reference is dropped |
| SessionManager.Manager.FinishSleep | server/session.py:717-731 | a grace countdown that fires can no longer be cancelled |
| SessionManager.Manager.FinishDetach | server/session.py:707-710 | a session still alive gets a new countdown |
| SessionManager.Manager.GetLive | server/session.py:903-916 | forgets a dead entry and finds the key's one live session if there is one |
| SessionManager.Manager.StartSession | server/session.py:934-972 | replaces what is live under the key, then spawns and registers |
| SessionManager.Manager.EndSession | server/session.py:974-988 | performs the segment described by EndDecides and EndFindsNobody, and answers true exactly if some session of the key was live |
| SessionManager.Manager.ExpireGrace | server/session.py:990-999 | the expired grace countdown under the lock |
| SessionManager.Manager.ExpireIdle | server/session.py:1001-1008 | the expired idle countdown under the lock |
| SessionManager.Manager.BeginAttach | server/session.py:671-692 | attach on the session side |
| SessionManager.Manager.Detach | server/session.py:703-710 | detaches only one's own socket |
| SessionManager.Manager.ServeTerminal | server/main.py:413-472 | the locked part of the route up to its first await |
| IdleCountdown.DecisionWindow | server/session.py:751-764 | with quiet measured on the run's own steps: under any activity a look decides exactly if the quiet has lasted the idle time, which is then less than 0.5 s more, and looks are at least 0.5 s apart |
| IdleCountdown.QuietIsNoticed | server/session.py:751-764 | no session stays quiet for idle + 0.5 s without having been decided upon, and no decision was made without a look after that much quiet |
| IdleCountdown.Countdown | server/session.py:751-758 | the loop over any activity pattern decides in that window and had good reason to sleep each time |
| RemoteCommand.RoundTrip | server/session.py:325-359 | for every directory, arguments and environment without NUL, reading the remote string by POSIX quoting and tokenising (sections 2.2 and 2.3 of the Shell Command Language, POSIX.1-2017 XCU), and the `bash -lc` argument again, gives exactly the intended directory, environment and program: `bash -l` for a shell, else the agent's literal name, the configured arguments, the notification words and the extra arguments, word for word |
| RemoteCommand.PrintingIsInjective | server/session.py:325-359 | two launches printed alike have the same directory, environment, agent and words, and the same configured and extra arguments wherever the extra ones do not repeat the notification option |
| RemoteCommand.CommandMeaning | server/session.py:327-359 | a remote project runs ssh with a terminal, the host and the remote string; a local one runs its login shell or the agent's words, with nothing quoted |
| RemoteCommand.EnvSplitsBack | server/session.py:327-359 | splitting each assignment at its first `=` gives the environment back |
| RemoteCommand.SplitsBack | server/config.py:142-159 | one assignment splits back because names have no `=` |
| RemoteCommand.NotificationsComeLast | server/session.py:297-325 | whatever the project's arguments say, the notification setting is the last of its kind and the subcommand comes after it |
| ShellSyntax.QuoteFeeds | server/session.py:327-359 | a quoted word is read back as exactly that word |
| ShellSyntax.JoinFeeds | server/session.py:327-359 | joined words are read back as exactly those words |
| ShellSyntax.QuotesWhenNeeded | server/session.py:327-359 | a word is left as it is exactly if it is not empty and has only safe characters |
| PidFile.SingleInstance | server/main.py:609-644 | of any number of processes, interleaved and crashing anywhere, at most one serves; its inode is locked, is the one the path names and holds its pid; provided others unlink the path only while nobody owns it |
| PidFile.ReleaseRemovesOwnFile | server/main.py:647-663 | an unlink in release removes one's own file |
| PidFile.ReleaseFindsOwnPid | server/main.py:647-663 | a release that reads the file back finds its own pid |
| PidFile.OnlyInterferenceAdmitsTwo | server/main.py:613-632 | two owners imply a foreign unlink while some process owned the path, and at most one of them has the named file |
| PidFile.StaleFileDoesNotBlock | server/main.py:616-644 | a file left by a dead process never keeps a new server out |
| PidFile.OwnedUnlinkAdmitsTwo | server/main.py:613-663 | from any reachable state, unlinking the path under any owner extends to two servers, without further interference |
| PidFile.UnlinkIsHarmlessExactly | server/main.py:613-663 | left alone afterwards the processes never come to two servers exactly if nobody owned the path when it was unlinked |
| PidFile.RunKeepsLocks | server/main.py:609-663 | locks, owners and file contents agree in every run |
| PidFile.GivesUpExactly | server/main.py:616-639 | a process that is claiming gives up exactly if another process holds the lock, or its fifth comparison has failed |
| PidFile.OpenDecides | server/main.py:616-617 | opening gets the file the path names, or creates one nobody has open |
| PidFile.LockDecides | server/main.py:618-627 | the lock is taken unless another process still there has it; then this process is gone, holds nothing and has changed nothing else |
| PidFile.CompareDecides | server/main.py:628-636 | the file is kept exactly if the path still names it; otherwise its lock is given up and the next of five attempts begins |
| PidFile.OwnerDecides | server/main.py:637-663 | the owner empties the file, writes its pid, serves, and on release removes the path; no lock changes hands |
| PidFile.Machine.ClaimPidFile | server/main.py:609-644 | the retry loop, others acting between any two calls, ends in at most five passes: serving alone, or gone and holding nothing |
| PidFile.Machine.ReleasePidFile | server/main.py:647-663 | release ends with the process released, still holding its inode |
| TokenStore.IssuedMeaning | server/auth.py:53-70 | issuing keeps issue order and at most 512, keeps the new token, drops what has expired, and drops an unexpired token only for 512 unexpired ones issued no earlier |
| TokenStore.UnexpiredIsSuffix | server/auth.py:53-62 | in issue order expiry drops exactly a prefix |
| TokenStore.CheckedMeaning | server/auth.py:72-80 | looking a key up removes it exactly if it has expired |
| TokenStore.LostWhen | server/auth.py:55-69 | the event is owed exactly when a token went |
| TokenStore.TokenTable.IssueToken | server/auth.py:53-70 | both loops together leave the newest 512 of the unexpired tokens and the new one, and set the event exactly if one went |
| TokenStore.TokenTable.KeyValid | server/auth.py:72-80 | true exactly for an unexpired key; an expired one is removed and announced |
| Revocation.RevokedInTime | server/auth.py:104-131 | a registered socket whose key became invalid in any way is asked to close within 30 s of that or of its registration, although all watchdogs share one event that any may clear |
| Revocation.ValidSocketsStayOpen | server/auth.py:104-116 | no socket with a valid key has ever been asked to close, and its watchdog is on duty |
| Revocation.DepartureIsSeenAtOnce | server/auth.py:66-79 | eviction and noticed expiry wake every waiting watchdog before any time passes; a logout has asked or is about to ask |
| Revocation.TokensLeaveOnly | server/auth.py:53-80 | an unexpired token leaves only by its logout or for 512 others issued no earlier |
| Revocation.NewTokenIsValid | server/auth.py:53-70 | the token just issued is valid |
| Revocation.CheckDecides | server/auth.py:72-80 | looking a token up removes exactly an expired one, and sets the event, waking every watchdog, exactly then |
| Revocation.LookDecides | server/auth.py:104-116 | a woken watchdog with a valid key begins a full new wait; otherwise it asks for the close and ends; no other watchdog loses its wake-up by its clearing the event |
| Revocation.LogoutDecides | server/auth.py:237-242 | a logout removes its own key only and collects exactly the sockets registered with it, whether the key was still valid or not |
| Revocation.VictimDecides | server/auth.py:98-102 | each collected socket is asked to close, in its turn |
| Revocation.SocketsDecide | server/auth.py:118-137 | a registered socket is watched under its key from then on, and an unregistered one neither watched nor asked |
| Revocation.IssueDecides | server/auth.py:53-70 | issuing sets the event exactly if an entry had to go |
| Revocation.TracesTell | server/auth.py:53-80 | the recorded times of issue and departure are when the store changed |
| Revocation.StepKeepsInv | server/auth.py:53-137 | each operation, watchdog turn and passage of time keeps store, trace and watchdogs consistent |
| Revocation.AuthManager.Watch | server/auth.py:104-116 | one turn of the watchdog |
| Revocation.AuthManager.RegisterSocket | server/auth.py:118-131 | a socket joins, possibly after its token went |
| Revocation.AuthManager.Logout | server/auth.py:237-242 | the key goes and its sockets are collected |
| Revocation.AuthManager.SetChanged | server/auth.py:68-69 | setting the event wakes every waiter |
| LoginBackoff.WindowBound | server/auth.py:139-157 | whatever the past, any window of T seconds holds at most 11 + T/93 failed verifications of a client, decay included |
| LoginBackoff.ClientWindowBound | server/auth.py:143-157 | the same for one client among many that is not evicted and does not succeed |
| LoginBackoff.ElevenInAMinute | server/auth.py:143-157 | the constant is met: eleven failures within 62 s |
| LoginBackoff.UnblockNeverDecreases | server/auth.py:139-157 | the time at which a client is let through never moves back |
| LoginBackoff.GapCosts | server/auth.py:143-157 | each further failure costs 93 s or its share of the credit, and a decay costs more than it gives back |
| LoginBackoff.FailureMeaning | server/auth.py:143-157 | a failure changes no other client's record that stays, and keeps the table bounded; what it makes of its own is FailureDecides |
| LoginBackoff.FailureDecides | server/auth.py:143-154 | on the table after it: more than 900 s after the unblock time the client has one failure and no delay, otherwise one more failure than before; no delay up to five, then 2 s, doubling each time, and 900 s from the fifteenth on |
| LoginBackoff.FailureEvicts | server/auth.py:155-157 | a failure forgets exactly the client at the front, when 1024 others are known and its own is not |
| LoginBackoff.TableInOrder | server/auth.py:143-157 | in every run the entries stand in the order of their clients' last failures, one a client, so the one at the front has not failed for longest |
| LoginBackoff.SuccessDecides | server/auth.py:221 | a success forgets its own client's failures only |
| LoginBackoff.LoginThrottle.RecordFailure | server/auth.py:143-157 | the table after a failure, with the eviction loop: the client has Record(1, now) after a decay and one more failure otherwise, unblocked within 900 s |
| LoginBackoff.LoginThrottle.BlockRemaining | server/auth.py:139-141 | zero exactly from the unblock time on, otherwise the time until then |
| StatusHub.AgreementExactly | server/project_status.py:85-121 | whenever the loop waits, subscribers disagree only by having received nothing; with the flag clear they agree with the last payload exactly if none joined since the last broadcast began by a trigger whose snapshot raised |
| StatusHub.FreshnessExactly | server/project_status.py:85-121 | the last payload was read after every notice exactly if no triggered snapshot with newer notices has raised since, and then it shows the sessions as they are once changes are notified |
| StatusHub.HubAgreement | server/project_status.py:85-121 | in runs in which snapshot does not raise both hold whenever the loop waits with the flag clear |
| StatusHub.NothingLostWithoutRaise | server/project_status.py:108-118 | no trigger is lost in a run in which snapshot does not raise |
| StatusHub.BroadcastsAreFresh | server/project_status.py:119-121 | every broadcast goes to all subscribers of that moment and was read after the last notice, unless a newer one is pending |
| StatusHub.RoundDecides | server/project_status.py:89-121 | a whole undisturbed round with subscribers: the payload has a row per project with its three live flags and goes to all subscribers exactly if the round was triggered or it differs from the last one; the same payload again goes to nobody |
| StatusHub.BroadcastDecides | server/project_status.py:74-83 | whatever the order of its sends, a broadcast leaves the payload with exactly the subscribers it reached, drops exactly those it did not, and remembers it |
| StatusHub.SubscribersDecide | server/project_status.py:30-39 | a subscriber joins with nothing received and the flag set; one that leaves is only removed |
| StatusHub.NeverStuck | server/project_status.py:85-121 | the loop can always go on unless it waits with the flag clear |
| StatusHub.RaiseLosesTrigger | server/project_status.py:115-118 | from any waiting state, a subscriber that joins just before a snapshot raises gets nothing while the flag is clear again |
| StatusHub.RaiseLeavesStale | server/project_status.py:115-118 | from any waiting state with a current payload, a notified change whose snapshot raises leaves it stale |
| StatusHub.DisagreementExists | server/project_status.py:115-118 | so agreement fails in some run in which snapshot raises |
| StatusHub.ProjectStatusHub.WaitIsOver | server/project_status.py:89-108 | the loop from its wait to the snapshot or back |
| StatusHub.ProjectStatusHub.FinishSnapshot | server/project_status.py:119-121 | broadcasts if triggered or different |
| StatusHub.ProjectStatusHub.FinishBroadcast | server/project_status.py:74-83 | drops the sockets whose send failed |
| StatusHub.ProjectStatusHub.Add | server/project_status.py:34-36 | a new subscriber counts as a notice |

## Left out

- A writer task that is cancelled before its first step: attach is taken to start the writer.
- `SessionManager.shutdown`, which takes no key lock and ends with `clear()`: ownership is stated for runs without it. Its concurrent `terminate` calls are part of `Termination`.
- Cancellation of a `terminate` call inside `Termination`; `Lifecycle` lets every task be cancelled at every await.
- Lifecycle.NoDeadlock: every await but the one for a lock is taken to return, so a direct close of a socket that never returns while the lock is held (server/session.py:681, 943) counts as able to run.
- RemoteCommand.NotificationsComeLast: is about positions; a project whose last argument is an option without its value would swallow the name of the setting.
- The idle countdown of a session that has ended is not cancelled in `Lifecycle`; when it fires it changes nothing (`LifecycleEffects.IdleDecides`).
- Coroutines as such: a method cannot be suspended, so the loops of `terminate`, the watchdogs, the status hub and the routes are segments of a step relation, with the loops of `terminate`, `_claim_pid_file` and `_idle_countdown` also written as loops.
- OutboundTheorems.AttachDoesNotHang: says the waiting attach can go on once its writer has ended, not that the network lets the writer end.
- Termination.CallsEnd: counts sleeps; the time the event loop needs between them is not bounded.
- Revocation.RevokedInTime: the event loop is taken to run a due watchdog before time passes, and a close that is asked for may still take as long as the socket's writer.
- LoginBackoff.ClientWindowBound: Python float overflow of the power is not modelled; attempts of one client are sequential.
- Claims the code does not make: a full grace period for every detached session, rescue of a session whose idle expiry already waits for the lock, an exit frame for a socket that attaches while its session exits, no signal after a reap.
- `add_reader` and `add_writer` failures, lone surrogates in input, an `os.write` that takes no byte, inode numbers reused while a process has the file open.
- PTY fork and exec, ioctl, WebSocket transport, TLS, uvicorn, argon2 and ssh as programs; sha256 is taken to be injective and new tokens to be new.
- History lookups, the Codex scan cache, `munge_cwd`, configuration validation, Origin rules, headers and audit records: look-ups and tables that would only add easy members.
- The browser code and the shell scripts, apart from stop.sh's number of polls.
