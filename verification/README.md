# Second-stage init: a verified model

This project models the engine of Android's second-stage `init` (with the boot-policy fork's failure
actions) and proves what it keeps over whole runs. It follows the program's parts:

- **Front end.** `Tokenizer` holds the scanner that un-escapes tokens into the buffer it is reading, as a
  class over an array, and the pure tokenizer it is proved equal to. `TokenLines` holds the token loop's
  lines, a printer, and the round trip between them; `Spellings` every other way to write a file, proved
  to be read as it was meant. `RcParser` holds the section state machine and the re-entrant import parser,
  proved to follow the documented import order; `RcSections` tells from the lines of a file alone what it
  imports and which section gets which line.
- **Action queue.** `ActionQueue` is `ActionManager` as a class together with its step functions;
  `ActionRuns` proves what any run executes, in which order and how often; `Triggers` says what triggers an
  action in terms of its triggers and the property store, and what is registered.
- **Services.** `Services` gives each operation on a service as a value, with the flag word as the set of
  its bits; `ServiceObjects` has the same operations as methods on fields and proves them equal.
  `LastRequest` (which requests let a service restart), `BringUp` (which bring it up) and `CrashWindow` speak
  about one service; `Names`, `ServiceWorld`, `ServiceRuns` and `ServiceLists` about
  the list, the reaper and re-entrant onrestart commands, for every reachable state; `CrashRuns`,
  `ExecGate`, `FailurePolicy`, `ShutdownOrder` and `Timers` build on them. `GateBreaks` has the runs that
  break the exec gate, made with the small runs of `PlainRuns`. `ServiceManager` is the list as
  a class that owns the service objects and calls their methods, with all of that kept on the heap.
- **Main loop.** `MainLoop` interleaves the main thread, the property thread and the onrestart commands
  that the reaper runs, step by step. `Wakeups` is about property waits, `PowerRequests` about shutdown
  requests, `ShutdownEntry` about what runs after a shutdown has been accepted, `PowerCommands` about what
  each command asks for and whether it can be carried out, `UserspaceReboot` about the reboot that comes back; `InitState` has the two shared objects as classes.
- **Persistent properties and key chords.** `PersistentProperties` and `Keychords`.

Runs are values (a datatype whose last step is outermost), and a step that is not enabled leaves the state
as it is, so a lemma about `After(run)` speaks about every reachable state. Fork results, clocks, exit
statuses, verdicts of section parsers, the boot policy, property expansion and the file system are
parameters that the lemmas quantify over.

## What differs from the documentation

- An action already waiting is queued again: the queue does not deduplicate across events
  (`init/README.md:84-86` says it does). `ActionRuns.SameActionRunsTwice`, with the exact count in
  `ActionRuns.TriggeredOncePerEvent`.
- The parser does hand out empty strings (`init/action.cpp:81-83` says it does not).
  `TokenLines.EmptyTokenIffSilent` says exactly for which input, `TokenLines.EmptyStringIsRead` gives one.
- A second `Start` on a stopping oneshot service takes back the restart the first one arranged
  (`init/service.cpp:471-488`). `LastRequest.SecondStartCancels`; the exact rule is in `LastRequestWins`.
- Under the policy actions log and ignore, the kill sent by `Restart` or `Reset` counts as a failing exit
  and disables the service (`init/service.cpp:285-336`). This is the `Suppressed` case of `LastRequestWins`.
- A shutdown request raised while another one is handled is erased when that one is done
  (`init/init.cpp:956-957`). `PowerRequests.KeptIffNotServing` says exactly which requests are kept, and
  `RequestIsForgotten` is a run from boot that loses one.
- A userspace reboot does not end a property wait before it stops messages, and then never proceeds
  (`init/reboot.cpp:1063-1068`). `UserspaceReboot.ProceedsIffNoWait` is exact; `WaitIsLost` is a run from
  boot into that state.
- An onrestart command that begins to wait for a property while a userspace reboot has messages stopped
  can miss its wakeup for good (`init/reboot.cpp:798-850`, `init/service.cpp:406-407`).
  `Wakeups.WaitCanBeLostIff` says that exactly these waits can be lost, `Wakeups.NoLostWakeup` that
  without them none is, and `UserspaceReboot.WakeupIsLost` is a run from boot that loses one.
- The exec gate breaks in three ways. An onrestart command that starts an exec while another is under way
  lets the gate open when the first of them ends (`init/service.cpp:406-409`; `GateBreaks.GateOpensEarly`
  is a run from boot). An onrestart command that loads a file may replace the service of the exec under
  way (`init/service_parser.cpp:685-707`), and a userspace reboot may drop it if it came from an APEX
  (`init/reboot.cpp:877-884`): the gate then stays closed with nobody to open it
  (`GateBreaks.OverriddenExecWedges`, `GateBreaks.DroppedExecWedges`), and no queued command runs until a
  shutdown begins or another exec is started (`GateBreaks.NoCommandWhileWedged`). These are all:
  `ExecGate.RequestKeepsGateIff`, `ExecGate.DefineKeepsGateIff` and `ExecGate.DropKeepsGateIff` are exact
  for each single step, and in every run without such a step `ExecGate.ReachableGate` holds.
- The result of `fsync` is ignored when persistent properties are stored. With a failing one a crash may
  leave anything (`PersistentProperties.FailedFsyncLosesData`); with a working one the protocol is safe.
- The wake-up time that a turn over the services computes ignores the `timeout_period` of a service that
  the same turn restarts (`init/init.cpp:375-403`). As a rule that does no harm, because the start is made
  known as a property and that wakes the loop. `Timers.MissedIff` says exactly when the timeout is missed:
  the start is not heard of (messages stopped, or triggers off), no failed start of the turn asks for a
  reboot, no queued command keeps the loop going, and no other deadline comes first.
  `Timers.TimeoutIsMissed` is a run from boot.
- A shutdown action that waits for a property blocks the shutdown for good, because messages are stopped by
  then (`init/reboot.cpp:1061-1063`, `init/property_service.cpp:138-141`). `PowerCommands.ShutdownCanFinishIff`
  is exact in every interleaving, `PowerCommands.ShutdownIsBlocked` is a run from boot.
- `class_start_post_data` also starts a service that was down at the reset if it ran at an earlier one
  (`init/service.cpp:708-718`; `init/README.md:426-429` says it was running at the time).
  `BringUp.PostDataComesBack` is exact, `BringUp.OldResetIsRemembered` is the case.
- A property trigger without a name is never looked at when an event is checked (`init/action.cpp:205-207`):
  `Triggers.NamelessTriggerIsIgnored`. And `*` on a property stands for any value when
  the property changes, but only for values that are not empty when it is merely looked at
  (`init/action.cpp:195-207`): `Triggers.EmptiedPropertyStarts`.
- The crash bound of eight exits per window needs nothing about how `sys.boot_completed` changes.

## Model

| member | source | states |
|---|---|---|
| `Tokenizer.ParseState.NextToken` | init/tokenizer.cpp:8-129 | one call is one step of the pure tokenizer on the unread bytes: unread bytes are untouched, the pointer stays in the buffer and never goes back, and a text token is the C string left in the buffer |
| `Tokenizer.ParseState.ScanFrom` | init/tokenizer.cpp:19-52 | from a non-blank byte: end, newline, comment and text cases agree with the pure scanner |
| `Tokenizer.ParseState.SkipSpace` | init/tokenizer.cpp:28-32 | blanks do not change what is scanned |
| `Tokenizer.ParseState.SkipComment` | init/tokenizer.cpp:33-41 | a comment extends to the end of its line |
| `Tokenizer.ParseState.ScanText` | init/tokenizer.cpp:47-127 | the text loop, quotes and escapes included, writes the token of the pure tokenizer and leaves the rest of the buffer unread |
| `Tokenizer.ParseState.QuotedStep` | init/tokenizer.cpp:67-82 | one byte inside quotes: the write pointer stays behind the read pointer and the pure tokenizer's result is unchanged |
| `Tokenizer.ParseState.EscapeStep` | init/tokenizer.cpp:83-123 | one escape, in every case, likewise |
| `Tokenizer.ParseState.EscapeChar` | init/tokenizer.cpp:88-121 | the byte after a backslash is un-escaped behind the read pointer |
| `Tokenizer.ParseState.EscapeBreak` | init/tokenizer.cpp:104-118 | a break after a backslash adds nothing to the token |
| `Tokenizer.ParseState.ContinueLine` | init/tokenizer.cpp:104-118 | a line continuation skips the break and the blanks after it and counts one line |
| `Tokenizer.ParseState.PlainStep` | init/tokenizer.cpp:54-66 | one byte outside quotes, or the end of the token with the newline it owes |
| `Tokenizer.ParseState.Finish` | init/tokenizer.cpp:47-50 | the terminating NUL makes the collected text the C string at `text` |
| `Tokenizer.ParseState.Put` | init/tokenizer.cpp:79 | writing behind the read pointer leaves all unread bytes as they were |
| `Tokenizer.ParseState.Text` | init/parser.cpp:129-131 | the string the caller makes of the token |
| `Tokenizer.NextProgress` | init/tokenizer.cpp:8-129 | every step consumes input or pays an owed newline, so the token loop ends; token texts hold no NUL |
| `Tokenizer.UnquotedReads` | init/tokenizer.cpp:51-127 | reading a token never lengthens the rest, and what it collects is free of NUL |
| `TokenLines.QuotedBodyReadsBack` | init/tokenizer.cpp:67-103 | a quoted body in which each quote is written as `"\""` reads back as the text |
| `TokenLines.TokenReadsBack` | init/tokenizer.cpp:47-82 | a printed token followed by a blank or newline reads back as that token |
| `TokenLines.LineReadsBack` | init/parser.cpp:87-131 | a printed line reads back as one line with all its tokens |
| `TokenLines.RoundTrip` | init/parser.cpp:77-132 | every list of non-empty lines of NUL-free tokens is read back from its printed form, numbered one by one |
| `TokenLines.LinesArePrintable` | init/parser.cpp:87-131 | every line read from any file is non-empty and NUL-free |
| `TokenLines.Canonical` | init/parser.cpp:47-134 | printing what was read from any file and reading it again gives the same lines |
| `TokenLines.EmptyTokenIffSilent` | init/tokenizer.cpp:51-82 | a token is empty exactly for empty quotes, line continuations and lone backslashes up to its end |
| `TokenLines.EmptyStringIsRead` | init/action.cpp:81-83 | two quotes are read as one empty string, against the comment |
| `Spellings.PieceReads` | init/tokenizer.cpp:53-127 | outside quotes `\n`, `\r`, `\t` and a backslash before any other character add newline, carriage return, tab and that character; a continued line adds nothing and counts one line; quotes add their text |
| `Spellings.TokenReads` | init/tokenizer.cpp:47-127 | a token written in any mixture of these ways is read as what its parts mean |
| `Spellings.WordScans` | init/tokenizer.cpp:51-66 | it ends at the next blank or line break |
| `Spellings.RowReads` | init/tokenizer.cpp:19-46 | a line of words, blanks and a comment is read as its words, numbered by the line it ends on |
| `Spellings.EverySpellingReadsBack` | init/parser.cpp:47-132 | every file that can be laid out so is read as what was meant, and its last line need not be ended |
| `Spellings.EscapedRoundTrip` | init/tokenizer.cpp:83-121 | every list of lines of non-empty NUL-free tokens is read back when written without quotes, blanks, `#`, quotes, backslashes and line breaks escaped |
| `Spellings.OpenQuoteDropsLine` | init/tokenizer.cpp:71-74 | a quote that is never closed swallows the rest of the file and the line it is on |
| `RcParser.Parser.CloseSection` | init/parser.cpp:64-75 | the section is ended once, its error counted, and errors are no longer suppressed |
| `RcParser.Parser.OpenSection` | init/parser.cpp:103-114 | a section start opens the section, or counts an error and suppresses the following ones |
| `RcParser.Parser.ParseImport` | init/import_parser.cpp:31-53 | an import line adds its expanded path unless the policy denies it |
| `RcParser.Parser.HandleLine` | init/parser.cpp:87-128 | one line: callback, section start, section line or error |
| `RcParser.Parser.NewlineToken` | init/parser.cpp:87-128 | a newline counts a line and ends the line collected, if any |
| `RcParser.Parser.OneToken` | init/parser.cpp:77-132 | one turn of the token loop: lines handled now and lines still to come are together the lines of the file |
| `RcParser.Parser.TokenLoop` | init/parser.cpp:47-134 | the loop over the in-place scanner handles exactly the lines of the pure tokenizer, in order |
| `RcParser.Parser.ParseData` | init/parser.cpp:47-134 | a file is its lines, the end of its last section, then its imports |
| `RcParser.Parser.EndOfFile` | init/import_parser.cpp:59-65 | the import list is taken and cleared before it is followed, so re-entry starts empty and nothing is lost |
| `RcParser.Parser.ParseConfigFile` | init/parser.cpp:146-166 | a denied file counts as parsed, an unreadable one fails |
| `RcParser.Parser.ParseConfigDir` | init/parser.cpp:168-200 | the files of a directory are parsed in sorted order; it fails exactly if the directory is allowed and cannot be opened |
| `RcParser.Parser.ParseConfig` | init/parser.cpp:202-207 | a path is a directory or a file, the recursion ends for every acyclic import graph, and it fails exactly if the path itself is allowed and cannot be read |
| `RcParser.OnLinesImports` | init/import_parser.cpp:31-53 | the imports collected from a file are those read off its lines, in order |
| `RcParser.SortIgnoresDirectoryOrder` | init/parser.cpp:192-193 | the load order does not depend on the order in which the directory lists its files |
| `RcParser.OnLineKeepsProtocol` | init/parser.h:28-45 | each line keeps the section protocol: a successful start, its lines, one end, nothing in between |
| `RcParser.FileInOrder` | init/README.md:713-734 | parsing a file appends the documented pre-order of it and its imports, and nested files keep the section protocol |
| `RcParser.ConfigInOrder` | init/README.md:713-734 | the same for any path, for every acyclic import graph |
| `RcSections.ImportsAreAskedFor` | init/import_parser.cpp:31-53 | the imports of a file are, in order, exactly the expanded and allowed paths that its import lines ask for |
| `RcSections.CollectedAreAskedFor` | init/parser.cpp:103-107 | so is the list that the parser collects while it reads the file |
| `RcSections.FileThenAskedFor` | init/README.md:713-734 | the documented order is the file and then what its lines ask for |
| `RcSections.AtMostIff` | init/parser.cpp:192-193 | files are ordered by the first character in which their names differ, a prefix first |
| `RcSections.LinesAreDealt` | init/parser.cpp:87-128 | each line goes to the callback of its prefix, to the section it names, or to the section begun last; it is dropped exactly if there is none or its start failed; the errors are the calls that failed and the strays |
| `RcSections.FileIsDealt` | init/parser.cpp:77-85 | the same for a whole file, whose last section is ended and whose end every section parser hears of |
| `ActionQueue.ActionManager.constructor` | init/action_manager.cpp:39-42 | an empty queue is valid |
| `ActionQueue.ActionManager.QueueTrigger` | init/action_manager.cpp:48-58 | an allowed trigger goes to the end of the event queue |
| `ActionQueue.ActionManager.QueueProperty` | init/action_manager.cpp:60-63 | a property change goes to the end of the event queue |
| `ActionQueue.ActionManager.Add` | init/action_manager.cpp:44-46 | a parsed action is registered last |
| `ActionQueue.ActionManager.QueueBuiltin` | init/action_manager.cpp:69-77 | a builtin is registered as a oneshot and its own event queued |
| `ActionQueue.ActionManager.Clear` | init/action_manager.cpp:134-140 | both queues and the command index are reset, registered actions stay |
| `ActionQueue.ActionManager.HasMoreCommands` | init/action_manager.cpp:123-126 | true exactly if something is executing or queued |
| `ActionQueue.ActionManager.PushMatching` | init/action_manager.cpp:84-89 | the actions that match the event are appended in registration order |
| `ActionQueue.ActionManager.ExpandEvents` | init/action_manager.cpp:80-92 | events are taken until one triggers something or none is left |
| `ActionQueue.ActionManager.RunFront` | init/action_manager.cpp:98-120 | the front action's next command runs, with whatever it queues itself, and the queue stays valid |
| `ActionQueue.ActionManager.FinishFront` | init/action_manager.cpp:109-120 | after the last command the action leaves the queue, and a oneshot leaves the registered actions |
| `ActionQueue.ActionManager.ExecuteOneCommand` | init/action_manager.cpp:79-121 | one call is expansion followed by one command and its bookkeeping, and keeps the queue valid |
| `ActionQueue.ActionManager.EraseAction` | init/action_manager.cpp:115-118 | exactly the action with that identity is erased |
| `ActionQueue.MatchingMember` | init/action.cpp:183-222 | an action is triggered if and only if it is registered and checks the event |
| `ActionQueue.MatchingSound` | init/action_manager.cpp:84-89 | triggered actions are registered ones, each once, in registration order |
| `ActionQueue.EraseMember` | init/action_manager.cpp:115-118 | erasing keeps exactly the other actions |
| `ActionQueue.DequeueKeepsValid` | init/action_manager.cpp:82-91 | expanding one event keeps the queue valid |
| `ActionQueue.EffectKeepsValid` | init/action_manager.cpp:44-77 | queueing and registering meanwhile keep it valid and do not disturb the running action |
| `ActionQueue.FinishKeepsValid` | init/action_manager.cpp:109-120 | so does the step to the next command, erased oneshots included |
| `ActionRuns.RunKeepsValid` | init/action_manager.cpp:44-140 | in every reachable state executing actions are registered, distinct and in order, and the command index is within the front action |
| `ActionRuns.ExecutedInOrder` | init/action_manager.cpp:79-121 | in every run, commands executed followed by commands pending are exactly, in order and once each, the commands of the actions that matched the taken events |
| `ActionRuns.EventsAreFifo` | init/action_manager.cpp:48-91 | in every run the events queued are the events taken followed by those waiting |
| `ActionRuns.DrainedQueue` | init/action_manager.cpp:79-126 | when the queue has drained every queued event was taken and every triggered command executed |
| `ActionRuns.BuiltinRunsOnce` | init/action_manager.cpp:69-121 | each builtin queued since the last clear has run at most once, and exactly once when the queue has drained |
| `ActionRuns.TriggeredOncePerEvent` | init/action_manager.cpp:83-91 | an action is triggered exactly once per event that it matched when the event was taken |
| `ActionRuns.SameActionRunsTwice` | init/README.md:84-86 | a run from the start in which an event queued twice runs its action twice, against the documentation |
| `ActionRuns.ExecuteOneIsRun` | init/action_manager.cpp:79-121 | a call of the class method is a stretch of such a run |
| `Triggers.StartsIff` | init/action.cpp:183-222 | which actions an event, a change and a builtin start, told by name, property triggers and stored values alone |
| `Triggers.EventStarts` | init/action.cpp:211-213 | an event starts exactly the registered actions of that name all of whose property triggers hold |
| `Triggers.ChangeStarts` | init/action.cpp:215-218 | a change to a stored, non-empty value starts exactly the nameless actions without property triggers, or with one on the property while all hold |
| `Triggers.StaleChangeStarts` | init/action.cpp:174-182 | a change counts with its own value even if the store holds another one by then |
| `Triggers.NamelessTriggerIsIgnored` | init/action.cpp:205-207 | a property trigger without a name is not looked at on events |
| `Triggers.EmptiedPropertyStarts` | init/action.cpp:195-202 | a property that becomes empty starts actions with a `*` on it |
| `Triggers.CommandsOfStarted` | init/action_manager.cpp:79-121 | in every run, what was executed and what is pending are exactly the commands of the actions whose triggers held, in order |
| `Triggers.RegisteredStay` | init/action_manager.cpp:44-46 | in every run exactly the actions ever registered, as they were given, are registered, but for oneshots that have run to their end |
| `Triggers.CallRunsOne` | init/action_manager.cpp:79-121 | one call runs the first command that is due, or nothing is left to run |
| `ServiceObjects.Service.StopOrReset` | init/service.cpp:763-793 | the flag word after stop, reset or restart; an illegal argument counts as disabled |
| `ServiceObjects.Service.Terminate` | init/service.cpp:729-736 | a terminated service is disabled and will not restart |
| `ServiceObjects.Service.ResetIfPostData` | init/service.cpp:706-713 | only services started after data was mounted are reset, and it is remembered that they ran |
| `ServiceObjects.Service.Start` | init/service.cpp:457-683 | the start: delayed, already running, failed or forked, with the shutdown a failure raises |
| `ServiceObjects.Service.Begin` | init/service.cpp:471-488 | stop flags are cleared, and a running oneshot that was being stopped is marked for restart |
| `ServiceObjects.Service.Spawn` | init/service.cpp:490-613 | console, binary and context checks, then the fork |
| `ServiceObjects.Service.Forked` | init/service.cpp:623-627 | pid, running flag, time and a fresh start order |
| `ServiceObjects.Service.ExecStart` | init/service.cpp:426-455 | a started exec sets its flag and the static one; a failure raises the target a second time |
| `ServiceObjects.Service.Restart` | init/service.cpp:750-760 | a running service is stopped to restart, one that is down is started, one restarting is left alone |
| `ServiceObjects.Service.Enable` | init/service.cpp:694-700 | enabling starts a service that was asked for while disabled |
| `ServiceObjects.Service.StartIfNotDisabled` | init/service.cpp:685-692 | a disabled service only remembers the request |
| `ServiceObjects.Service.StartIfPostData` | init/service.cpp:715-723 | only services that ran at the reset are started |
| `ServiceObjects.Service.Reap` | init/service.cpp:261-411 | the exit, in every branch |
| `ServiceObjects.Service.Account` | init/service.cpp:285-345 | the policy, the reboot target and the exec gate, in that order |
| `ServiceObjects.Service.ApplyPolicy` | init/service.cpp:285-337 | what each policy action does to a failing service |
| `ServiceObjects.Service.Leave` | init/service.cpp:349-357 | the process is gone; a oneshot is disabled unless restarted or reset |
| `ServiceObjects.Service.Settle` | init/service.cpp:359-404 | the service stays down, aborts, or goes on to restart |
| `ServiceObjects.Service.CountCrash` | init/service.cpp:376-400 | the crash counter and whether this was one crash too many |
| `ServiceObjects.Service.UnSetExec` | init/service.h:95-98 | the exec flag of the service and the static one are cleared |
| `ServiceObjects.Service.SetOneshot` | init/service.h:133-139 | the oneshot flag as asked |
| `LastRequest.RequestEffect` | init/service.cpp:471-488 | a request on a running service changes its flags only, and which stop and restart flags it leaves |
| `LastRequest.ExitEffect` | init/service.cpp:345-411 | an exit is followed by a restart or abort exactly if no stop flag is set, a oneshot is to be restarted, and the policy does not suppress it |
| `LastRequest.LastRequestWins` | init/service.cpp:750-793 | after any list of requests on a running service the exit restarts exactly if the list, read from its end, says so |
| `LastRequest.SecondStartCancels` | init/service.cpp:471-488 | stop, start restarts any running oneshot; stop, start, start does not |
| `BringUp.StartForksIff` | init/service.cpp:457-683 | a service that is down is forked if and only if it need not wait and can be launched; what is left otherwise |
| `BringUp.ForkedIffBroughtUp` | init/service.cpp:685-793 | after any list of requests a service that was down has been forked, and once, if and only if one of them brings it up, read off the list |
| `BringUp.EnableAfterClassStart` | init/service.cpp:685-700 | a class start of a disabled service takes effect when it is enabled, unless it was stopped meanwhile |
| `BringUp.OnlyResetComesBack` | init/README.md:431-438 | a service that was reset comes back with its class, one that was stopped does not |
| `BringUp.StartedIsFree` | init/service.cpp:471-474 | a service that has been started is free to restart after a crash, whatever had stopped it before |
| `BringUp.PostDataComesBack` | init/service.cpp:706-723 | after a reset of the data services their start brings back exactly those that ran at this reset or an earlier one |
| `BringUp.EarlyServicesStay` | init/service.cpp:706-713 | services started before the data partition was mounted are left alone by that reset |
| `BringUp.OldResetIsRemembered` | init/README.md:426-429 | one that was down at the reset but ran at an earlier one is started |
| `BringUp.ExecStartForksIff` | init/service.cpp:426-455 | a start that is waited for works under the same conditions, is never delayed, and raises its target twice if it fails |
| `BringUp.ExecEndsDisabled` | init/service.cpp:345-357 | when it is done the gate opens and it is not restarted |
| `BringUp.OneshotDecides` | init/init.cpp:431-432 | whether an exit is followed by a restart is decided by the last request about oneshot |
| `CrashWindow.CountsLatest` | init/service.cpp:376-400 | the counter counts the latest exits, all since the start of the window |
| `CrashWindow.FatalOnlyWithinWindow` | init/service.cpp:372-388 | after boot a fatal exit is the fifth of exits that lie within one window |
| `CrashWindow.FifthBeforeBootIsFatal` | init/service.cpp:372-388 | before boot completes exactly the fifth exit on is fatal, however far apart |
| `CrashWindow.GroupsAreApart` | init/service.cpp:397-400 | a new count begins only when the window of the old one has passed |
| `CrashWindow.AtMostEight` | init/service.cpp:372-401 | without a fatal exit at most eight exits fall into any interval as long as the window |
| `CrashWindow.EightIsReached` | init/service.cpp:372-401 | the bound is met |
| `CrashRuns.ExitMovesCounters` | init/service.cpp:345-404 | an exit moves the counters by the crash rule exactly if it counts, and aborts exactly if critical and one too many |
| `CrashRuns.CountsIff` | init/service.cpp:285-375 | which exits count and which can be fatal, told by the flags before the exit and the policy |
| `CrashRuns.CountersAreCount` | init/service.h:157-159 | in every reachable state the counters of every listed service are those of its exits counted since it was defined |
| `CrashRuns.AbortMeansFiveWithinWindow` | init/service.cpp:372-388 | in every run: an exit that aborts after boot is the last of five counted exits of its service within one window |
| `CrashRuns.SparedAtMostEight` | init/service.cpp:372-401 | in every run without an abort: a listed service that was critical at its counted exits has at most eight of them per window |
| `Names.IsLegalPropertyName` | init/util.cpp:424-447 | true exactly for non-empty names of legal characters with dots only between others |
| `Names.TempNamesDiffer` | init/service.cpp:815-817 | names made up for exec commands with different counters differ, whatever the commands are |
| `Names.TempNameIsNotValid` | init/service_parser.cpp:714-720 | such a name is never one that a configuration file can give |
| `Names.ValidNameIff` | init/service_parser.cpp:714-720 | a file may give a service any legal property name of at most 92 characters |
| `ServiceWorld.StartMoves` | init/service.cpp:457-627 | a start forks a service that was down, with the next start order and a new pid, or leaves process and place as they were |
| `ServiceWorld.OpMoves` | init/service.cpp:685-793 | so does every other operation |
| `ServiceWorld.RequestKeeps` | init/builtins.cpp:323-368 | every request of a command keeps the invariant of all services |
| `ServiceWorld.TempExecKeeps` | init/builtins.cpp:1278-1294 | so does an exec of a temporary service, listed even if it could not be started |
| `ServiceWorld.RequestsKeep` | init/service_list.cpp:84-93 | so does any list of requests |
| `ServiceRuns.ReapGoes` | init/service.cpp:261-411 | an exit gives up process, place and exec flag, or leaves a temporary service to be removed |
| `ServiceRuns.BuiltinKeeps` | init/builtins.cpp:1446-1454 | every command keeps the invariant: a request, a file with services loaded, or the start of the delayed services |
| `ServiceRuns.BuiltinsKeep` | init/service.cpp:406-407 | so does any list of onrestart commands |
| `ServiceRuns.ReapKeeps` | init/sigchld_handler.cpp:54-107 | a zombie reaches at most one service, a temporary one that leaves the list is exactly the one reaped, and the invariant is kept with onrestart commands run inside, those that define services included |
| `ServiceRuns.DefineKeeps` | init/service_parser.cpp:656-712 | the end of a service section keeps names distinct: an override replaces, a duplicate is refused |
| `ServiceRuns.ShutdownKeeps` | init/reboot.cpp:758-767 | the start of shutdown keeps it |
| `ServiceRuns.DropKeeps` | init/reboot.cpp:877-884 | dropping the services that came from APEXes keeps it |
| `ServiceRuns.MarkKeeps` | init/service_list.cpp:79-94 | starting the delayed services keeps it |
| `ServiceRuns.ClearingLosesNothing` | init/service_list.cpp:79-105 | no start is delayed while the delayed ones are made, so clearing the list afterwards loses none |
| `ServiceRuns.StepKeeps` | init/sigchld_handler.cpp:54-107 | every step of the service manager keeps the invariant |
| `ServiceRuns.Reachable` | init/service.cpp:345-411 | in every reachable state: running, owning a process and having a start order coincide, a pending restart excludes running and stopping, names and live pids are distinct, start orders tell the latest starts, and a service spared by policy has no reboot target |
| `ServiceLists.DefinitionIs` | init/service_parser.cpp:685-707 | what the end of a section makes of the list: added last, replaced and last, or refused |
| `ServiceLists.RequestIs` | init/builtins.cpp:323-368 | a request reaches the service of that name and no other |
| `ServiceLists.ExecIs` | init/service.cpp:795-819 | what an exec leaves: one more counted, a temporary service listed while its process lives, the gate closed unless in the background |
| `ServiceLists.DelayedAreStarted` | init/service_list.cpp:79-94 | every listed service whose start was delayed runs once the configurations have been read, if it can be launched |
| `ServiceLists.BuiltinsInOrder` | init/service.cpp:406-407 | onrestart commands run one after the other and none is left out |
| `ServiceLists.OnrestartOnlyOnRestart` | init/service.cpp:359-407 | they run only if the service goes on to restart; an unknown process changes only the set of processes |
| `ServiceLists.ShutdownReleases` | init/reboot.cpp:758-767 | the start of shutdown takes the exec flag from every service and opens the gate, unless the list is empty |
| `ServiceManager.ServiceList.constructor` | init/service_list.cpp:26-30 | an empty list is valid |
| `ServiceManager.ServiceList.FindByName` | init/service_list.cpp:54-59 | the first listed object of that name |
| `ServiceManager.ServiceList.FindByPid` | init/sigchld_handler.cpp:70 | the first listed object with that pid |
| `ServiceManager.ServiceList.RemoveService` | init/service_list.cpp:54-63 | exactly the first object of that name leaves the list, no object changes |
| `ServiceManager.ServiceList.EndSection` | init/service_parser.cpp:656-712 | the new object is added, replaces the old one or is refused, and the list stays valid |
| `ServiceManager.ServiceList.Accepts` | init/service_parser.cpp:685-704 | the three refusals, exactly |
| `ServiceManager.ServiceList.RunCommand` | init/builtins.cpp:1446-1454 | a command changes the objects as its value-level step says, and the list stays valid; no listed object becomes temporary or stops being so |
| `ServiceManager.ServiceList.Request` | init/builtins.cpp:323-368 | the same for a request on services |
| `ServiceManager.ServiceList.LoadSection` | init/service_parser.cpp:656-712 | the same for a section loaded by a command: a fresh object is added, replaces the old one or is refused |
| `ServiceManager.ServiceList.Ask` | init/service.cpp:685-793 | one object and the shared state change as the operation says |
| `ServiceManager.ServiceList.RunOn` | init/service.cpp:685-793 | the object of that name changes and no other |
| `ServiceManager.ServiceList.RunExecStart` | init/builtins.cpp:354-368 | the same for a listed service that is waited for |
| `ServiceManager.ServiceList.RunExec` | init/service.cpp:795-819 | the exec counter, the temporary service and when it is listed |
| `ServiceManager.ServiceList.ExecuteAllCommands` | init/service.cpp:406-407 | onrestart commands, definitions included, run one after the other, each on what the one before left |
| `ServiceManager.ServiceList.ReapOneProcess` | init/sigchld_handler.cpp:45-107 | find, reap, run onrestart commands, remove, and only then wait for the process |
| `ServiceManager.ServiceList.ReapService` | init/service.cpp:261-411 | the object is reaped, then its onrestart commands run on the list that leaves; whether it is temporary does not change |
| `ServiceManager.ServiceList.MarkUpdate` | init/service_list.cpp:79-94 | the delayed services are started one after the other and the list stays valid |
| `ServiceManager.ServiceList.HandleProcessActions` | init/init.cpp:375-403 | the loop over the objects is the turn of all services one after the other, and the list stays valid |
| `ServiceManager.ServiceList.HandleOne` | init/init.cpp:378-401 | one service: kill, start, or move the wake-up time forward |
| `ServiceManager.ServiceList.BeginShutdown` | init/reboot.cpp:758-767 | every service gives up its exec flag and the gate opens |
| `Timers.OnlyOverdueChange` | init/init.cpp:390-396 | a turn changes exactly the services that wait to restart and whose time has come |
| `Timers.TurnKeeps` | init/init.cpp:375-403 | a turn keeps the invariant of all services |
| `Timers.NobodyForgotten` | init/init.cpp:390-401 | after a turn every service still waiting to restart is due no earlier than the wake-up time, or its start is delayed |
| `Timers.TimeoutsKept` | init/init.cpp:378-388 | a running service with a timeout is killed exactly if its time is up, and otherwise due no earlier than the wake-up time |
| `Timers.KilledAreOverTime` | init/init.cpp:378-382 | nobody else is killed |
| `Timers.WakesForADeadline` | init/init.cpp:383-401 | the wake-up time is the deadline of a service whose time had not come |
| `Timers.WakesByIff` | init/init.cpp:375-403 | the loop wakes up by a given time if and only if some service has a deadline by then |
| `Timers.TurnIs` | init/init.cpp:375-403 | which service a turn starts and kills, told by the clock, its last start and its periods, and what it then runs as |
| `Timers.SleepIs` | init/init.cpp:383-401 | the loop sleeps until the earliest of these times that had not come |
| `Timers.TimeoutsSeenTo` | init/init.cpp:378-388 | the timeout of a service that the turn did not restart is never missed |
| `Timers.MissedIff` | init/init.cpp:948-985 | the timeout of a running service is missed if and only if the turn restarted it, the start is not heard of, the turn asked for no reboot, no queued command keeps the loop going and no deadline comes by then |
| `Timers.RestartedTimeoutIsMissed` | init/init.cpp:390-396 | a service alone, restarted while init waits for a property and triggers are off, is such a case |
| `Timers.TimeoutIsMissed` | init/init.cpp:390-396 | a run from boot that ends in such a turn, whatever the periods are |
| `ExecGate.RequestKeepsGateIff` | init/service.cpp:426-455 | a request keeps the gate if and only if it does not give the exec flag to another service while an exec is under way, exec_start of a listed service and exec of a temporary one alike |
| `ExecGate.DefineKeepsGateIff` | init/service_parser.cpp:685-707 | the end of a service section keeps the gate if and only if it does not replace a service that carries the exec flag; otherwise the gate is closed with no holder |
| `ExecGate.DropKeepsGateIff` | init/reboot.cpp:877-884 | dropping the services from APEXes keeps the gate if and only if none of them carries the exec flag; otherwise the gate is closed with no holder |
| `ExecGate.BuiltinKeepsGateIff` | init/builtins.cpp:354-368 | the exact condition for every command, from the queue or from onrestart |
| `ExecGate.BuiltinsKeepGate` | init/service.cpp:406-407 | a list of onrestart commands of which none does harm keeps the gate |
| `ExecGate.ReapKeepsGate` | init/service.h:95-98 | reaping gives up exactly the claim of the process reaped, and onrestart commands that do no harm keep the gate |
| `ExecGate.OnrestartKeepsGateIff` | init/service.cpp:406-409 | an onrestart command keeps the gate if and only if it does no harm to the state that the exit leaves |
| `ExecGate.ReachableGate` | init/init.cpp:960-962 | in every run in which no onrestart command starts a second exec or replaces the service of the one under way, and that service is not dropped, the static flag is set exactly while one listed service carries the exec flag |
| `ExecGate.ClosedUntilReaped` | init/init.cpp:960-962 | from the start of an exec until it is reaped or shutdown begins, no such step runs a queued command, opens the gate or takes it from its holder |
| `ExecGate.NoCommandWhileExec` | init/init.cpp:960-962 | the same over any stretch of a run |
| `GateBreaks.GateOpensEarly` | init/service.cpp:406-409 | a run from boot in which the end of one exec opens the gate while a second still runs |
| `GateBreaks.DroppedExecWedges` | init/reboot.cpp:877-884 | a run from boot in which the service of an exec is dropped and the gate stays closed with no holder |
| `GateBreaks.OverriddenExecWedges` | init/service_parser.cpp:685-707 | a run from boot in which it is replaced by an override, with the same end |
| `GateBreaks.NoCommandWhileWedged` | init/init.cpp:960-962 | from such a state no queued command ever runs, whatever exits, until shutdown begins or an onrestart command starts another exec |
| `FailurePolicy.OptionKeepsPolicy` | init/service_parser.cpp:357-378 | a target is stored exactly under the reboot policy, once and if well formed |
| `FailurePolicy.NoShutdownFromExit` | init/service.cpp:285-343 | under another policy a failing exit requests no shutdown and does not abort |
| `FailurePolicy.ExitAnswersIff` | init/service.cpp:285-343 | exactly a failing exit under the reboot policy requests a shutdown, if there is a target; under any other the target and the critical flag are taken away, and log and ignore disable the service |
| `FailurePolicy.PolicyHolds` | init/service.cpp:426-469 | in every run: such a service requests no shutdown by a failed start, a failed exec or a failing exit |
| `FailurePolicy.NoRebootPolicyNoShutdown` | init/service.cpp:285-343 | if the policy never says reboot, no run of the services ever requests a shutdown |
| `FailurePolicy.TargetIsRaised` | init/service.cpp:340-343 | under the reboot policy a failed start and a failing exit do request it |
| `ShutdownOrder.InShutdownOrder` | init/service_list.cpp:44-52 | exactly the started services, in strictly falling start order |
| `ShutdownOrder.ReachableOrders` | init/service.cpp:623-627 | in every reachable state live start orders are distinct and below the next one |
| `ShutdownOrder.OrderTellsHistory` | init/service_list.cpp:43-52 | in every reachable state that order is the running services, each started later than all those after it |
| `InitState.PropWaiterState.StartWaiting` | init/init.cpp:154-169 | refused during a wait; otherwise the read and record steps of the interleaving model, with nothing in between |
| `InitState.PropWaiterState.ResetWaitForProp` | init/init.cpp:171-174 | the wait is forgotten |
| `InitState.PropWaiterState.CheckAndResetWait` | init/init.cpp:176-196 | the wait ends exactly for the awaited name and value |
| `InitState.PropWaiterState.MightBeWaiting` | init/init.cpp:203-206 | true exactly during a wait |
| `InitState.ShutdownState.TriggerShutdown` | init/init.cpp:232-242 | the request is raised with its command |
| `InitState.ShutdownState.CheckShutdown` | init/init.cpp:244-250 | the pending command, unless a shutdown is under way: where the loop goes next |
| `MainLoop.ReachableLawful` | init/init.cpp:948-962 | in every interleaving nothing is awaited between the gate and a command, and messages are passed on only while they are accepted |
| `MainLoop.ReachableGated` | init/init.cpp:960-962 | in every interleaving a queued command begins only while nothing is awaited and no exec is under way |
| `Wakeups.ReachableAwake` | init/init.cpp:152-220 | the wait invariant holds in every interleaving without such a wait in a userspace reboot |
| `Wakeups.NoLostWakeup` | init/property_service.cpp:188-216 | in every interleaving in which no onrestart command begins to wait while a userspace reboot has messages stopped: while messages are accepted, init waits only for a value the property does not have, or the matching check is still owed |
| `Wakeups.WaitCanBeLostIff` | init/reboot.cpp:769-773 | a wait that begins can be lost if and only if it begins inside a userspace reboot with messages stopped |
| `UserspaceReboot.WakeupIsLost` | init/reboot.cpp:798-850 | a run from boot in which it is lost |
| `ShutdownEntry.ReachableSound` | init/action_manager.cpp:69-121 | in every interleaving the queue is valid, busy exactly inside commands, and the builtins of the shutdown are the ones registered |
| `ShutdownEntry.Reachable` | init/reboot.cpp:1061-1082 | where an accepted full shutdown stands, for each place the main thread can be in |
| `ShutdownEntry.OnlyShutdownActionsRun` | init/reboot.cpp:1061-1082 | in every interleaving, onrestart commands included, the queued commands run after acceptance and before the reboot are exactly those of actions matching the shutdown trigger, in order |
| `ShutdownEntry.ShutdownRunsNothingElse` | init/property_service.cpp:138-141 | until then what has run is a prefix of that and no message is accepted |
| `PowerCommands.CommandsAre` | init/reboot.cpp:974-1060 | what every command asks for, told by its text: `shutdown` and `reboot`, alone or before a comma, are full, `reboot,userspace` likewise is a userspace reboot, all others are unknown |
| `PowerCommands.SettingIsHeard` | init/property_service.cpp:188-216 | what a property that is set does: ends the wait for it, raises a request, is queued as a change |
| `PowerCommands.ShutdownLog` | init/reboot.cpp:1061-1078 | between acceptance and reboot run exactly the commands of the actions on `shutdown` whose property triggers hold |
| `PowerCommands.ShutdownCanFinishIff` | init/init.cpp:960-962 | in every interleaving an accepted shutdown can still come to the reboot if and only if init does not wait for a property |
| `PowerCommands.CommandIsCarriedOut` | init/reboot.cpp:974-1082 | from boot on, every command that asks for a full shutdown comes to the reboot |
| `PowerCommands.ShutdownIsBlocked` | init/reboot.cpp:1061-1063 | a run from boot in which a shutdown action waits and the reboot never comes |
| `PowerCommands.UserspaceQueues` | init/reboot.cpp:940-948 | what a userspace reboot queues |
| `PowerCommands.FailedUserspaceRebootIsServed` | init/reboot.cpp:786-790 | a userspace reboot that fails leaves the shutdown, and the full reboot it asks for is turned to next |
| `PowerRequests.RequestIsServed` | init/init.cpp:948-958 | a request raised while none is served stays until the loop looks for it and is then served |
| `PowerRequests.RaisedWhileServing` | init/init.cpp:956-957 | one raised while another is served is forgotten: every continuation is still serving or has gone through a state without a request |
| `PowerRequests.KeptIffNotServing` | init/init.cpp:948-958 | a request is kept until the loop looks for it if and only if none is being served when it is raised |
| `PowerRequests.RequestIsForgotten` | init/init.cpp:956-957 | a run from boot that loses a request although messages are accepted and no shutdown is under way |
| `PowerRequests.FailedWatchdogIsForgotten` | init/reboot.cpp:923-948 | so is the one a failed watchdog fork raises itself |
| `UserspaceReboot.UserspaceRebootHangs` | init/reboot.cpp:1063-1068 | a wait under way when messages stop is never ended, and no queued command runs again unless another request is raised |
| `UserspaceReboot.ProceedsIffNoWait` | init/reboot.cpp:923-948 | once messages are stopped the userspace reboot can go on to its commands if and only if init does not wait for a property, an exec under way or not |
| `UserspaceReboot.WaitIsLost` | init/property_service.cpp:210-216 | a run in which such a wait is for a value the property already has |
| `UserspaceReboot.UserspaceCommand` | init/reboot.cpp:974-1060 | a command starting with `reboot,userspace,` asks for a userspace reboot |
| `PersistentProperties.UpdateRebinds` | init/persistent_properties.cpp:212-229 | the new list binds the name to the value, keeps every other binding and keeps names distinct |
| `PersistentProperties.PropertyFile.Load` | init/persistent_properties.cpp:143-171 | the stored list if it can be read, or the properties in memory; leftovers and files that were read and hold no list are removed, and a safe disk is safe after each removal |
| `PersistentProperties.PropertyFile.WriteFile` | init/persistent_properties.cpp:173-210 | the trace leads from the old disk to the new one call by call; a crash after any call leaves what it could have left before or the new list, and after success exactly the new list, if fsync works; the temporary file stays only if it could not be written |
| `PersistentProperties.PropertyFile.Fill` | init/persistent_properties.cpp:175-186 | writing the temporary file leaves the stored one and what a crash may leave as they were |
| `PersistentProperties.PropertyFile.Publish` | init/persistent_properties.cpp:190-207 | the same for the rename and the sync of the directory |
| `PersistentProperties.PropertyFile.WritePersistentProperty` | init/persistent_properties.cpp:212-233 | the same for a whole update of one property, the removals made while loading included |
| `PersistentProperties.PropertyFile.Replay` | init/persistent_properties.cpp:212-233 | after any number of updates readers see the current list and a crash leaves one of the possible ones |
| `PersistentProperties.SafeAfterCrash` | init/persistent_properties.cpp:173-210 | a safe disk leaves, after a crash, a whole list that is among those allowed |
| `PersistentProperties.RestartedIsSafe` | init/persistent_properties.cpp:143-156 | after a crash and a restart the disk is safe again, a leftover temporary file included |
| `PersistentProperties.PossibleDistinct` | init/persistent_properties.cpp:212-229 | every list a crash may ever leave has distinct names |
| `PersistentProperties.SyncedDirectoryLeavesCurrent` | init/persistent_properties.cpp:196-207 | if every directory sync succeeded a crash leaves exactly the current list |
| `PersistentProperties.FailedFsyncLosesData` | init/persistent_properties.cpp:187-194 | if fsync fails the code goes on and a crash may leave anything |
| `Keychords.Mask.constructor` | init/keychords.cpp:50 | as many zero words as the number makes if taken for bytes |
| `Keychords.Mask.SetBit` | init/keychords.cpp:52-60 | exactly that code changes, and codes beyond the mask are ignored |
| `Keychords.Mask.GetBit` | init/keychords.cpp:62-65 | membership, for codes within the mask |
| `Keychords.Mask.Size` | init/keychords.cpp:75-77 | the number of codes the mask has room for |
| `Keychords.Mask.Resize` | init/keychords.cpp:79-84 | room for the code, never less, and no code changes |
| `Keychords.Mask.Nonzero` | init/keychords.cpp:86-91 | true exactly if some code is in the mask |
| `Keychords.Mask.And` | init/keychords.cpp:93-101 | the intersection, as long as the shorter operand |
| `Keychords.Mask.OrAssign` | init/keychords.cpp:103-111 | the union cut to the length of the right operand |
| `Keychords.Chords.Register` | init/keychords.cpp:281-284 | a non-empty chord that is not known yet is added last, anything else changes nothing |
| `Keychords.Chords.LambdaCheck` | init/keychords.cpp:113-128 | the handler runs exactly for chords all down now and not all down at the check before, over any sequence of checks |
| `Keychords.Chords.LambdaHandler` | init/keychords.cpp:130-136 | a key event changes one code, and the handler runs for exactly the chords all of whose keys are down now and were not at the check before |
| `Keychords.Chords.BuildMask` | init/keychords.cpp:159-165 | the mask holds exactly the registered codes and has room for each |
| `Keychords.Chords.GeteventEnable` | init/keychords.cpp:138-195 | a device is used exactly if it offers a registered key; whatever it answers, lookups of registered codes stay in bounds and no registered key that was down is forgotten |
| `Keychords.Chords.Offered` | init/keychords.cpp:168-171 | the keys the device has, and whether a registered one is among them |
| `Keychords.Chords.Merge` | init/keychords.cpp:183-188 | the shrinking union keeps every registered code in bounds and a check follows |
| `Keychords.FiredOnce` | init/keychords.cpp:113-128 | one check calls the handler with a chord once or not at all |
| `Keychords.CountedOnce` | init/keychords.cpp:113-128 | a check adds a call with a chord exactly if the chord is all down now and was not at the check before |

## Left out

- Flag word: modelled as the set of its 13 bits, not as an integer.
- ShutdownOrder.InShutdownOrder: works on the values of the services, not on pointers to them.
- Action addresses: an action's identity is a number never reused, so an address reused after an erased oneshot is not captured.
- Property reads during one event's expansion see one snapshot of the store per event.
- Start orders are unbounded, the source's counter is a machine integer.
- Assumptions on the system: fork returns no pid of a process not yet waited for, time does not run backwards, fsync and rename behave as the disk model says.
- `class_start` and the other class commands are sequences of requests on single services; onrestart commands are arbitrary lists of requests, definitions and starts of delayed services.
- An onrestart command that replaces the very service whose exit runs it: the source destroys that service while its commands run, the model goes on with them.
- Control messages, timers and key chord handlers appear only as requests on services.
- A container's SIGTERM (init/init.cpp:584-592), which handles a shutdown command without raising a request.
- The main loop's model has one flag for execs; which service holds it is the subject of `ExecGate`.
- FailurePolicy.NoRebootPolicyNoShutdown: speaks of the requests that services raise through their reboot targets; the reboot callback of the commands that run `vdc` (init/builtins.cpp:1278-1294) is not a request of that kind.
- PersistentProperties.PropertyFile.WriteFile: the sync of an opened directory is assumed to work, its result is ignored by the source as well.
- `WaitToBeReaped` and its timeout.
- `RebootMonitorThread` and its semaphores, and what `DoReboot` does to file systems.
- `ActionParser`: trigger syntax and vendor checks; that a registered action has a command is assumed of `Register` effects (init/action_parser.cpp:165-171).
- `ExpandProps` is a parameter, and so are the boot policy's glob matching and its XML file.
- `init.svc.*` properties themselves (that setting one wakes the loop is part of `Timers`), process groups, cgroups, lmkd, sockets, namespaces and capabilities of services.
- Service options that store one checked value, and the checks of a section's end on interfaces and on services both critical and oneshot (such a section is then not defined).
- Keychords: words are vectors of 32 booleans; device discovery and inotify are left out.
- Persistent properties: protobuf encoding (a file holds a list or something unreadable) and the legacy directory.
- The properties that announce an updatable process that keeps crashing (init/service.cpp:389-394); its counter is modelled.
- Subcontexts, first-stage init, ueventd, SELinux, mounts, snapshots and bootcharts.
