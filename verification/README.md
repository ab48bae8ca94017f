# DatrixOps: a verified model of its core

DatrixOps is a fleet monitor: a Go backend with a PostgreSQL database, and an agent on every
server. This project models the parts of it whose correctness is hard to see, and proves what they
promise. Nothing here runs the original; `dafny verify dfyconfig.toml` checks everything.

**Cron schedules** (`Text`, `Calendar`, `CronField`, `CronSchedule`, `CronParser`, `CronLines`).
The agent reads crontab files and computes the next run of every job by jumping whole months, days
and hours over the civil calendar. Time is a count of minutes since the start of year 1 with Go's
`time.Date`, its normalisation and its accessors on top. The search is proved equal to trying every
minute; when it finds nothing is characterised exactly; field parsing is proved against the
ranges the text names, with the 64-bit counter of the loop written out; a whole file survives
printing and parsing; the job id's preimage is injective.

**Enrollment, tasks and uninstall** (`FleetRows`, `FleetSystem`, `FleetProofs`, `FleetTheorems`,
`FleetTasks`, `FleetStore`). Server rows and task rows, with one event for every SQL statement or transaction, a
clock, agents that may lose any message, and any interleaving. The theorems are about every run.
`FleetStore` has the handlers themselves as methods on the two tables: every method is one or two
events of a run, so that the theorems hold of the tables between any two of them.

**Alerts** (`Alerts`, `AlertTheorems`, `AlertReminders`, `AlertStore`). The state rows and the notification log under any
interleaving of the statements of any number of workers, each of which goes from its upsert to its
test to its transition, within the thirty seconds of a run; and how long a condition has held when
its alert starts firing, and how far apart its reminders are.

**Reverse terminal** (`TerminalHub`, `TerminalProofs`, `TerminalTheorems`, `TerminalRows`, `TerminalSteps`,
`TerminalStore`, `TerminalAgent`, `TerminalLink`). The hub's handlers are goroutines whose critical sections,
statements and writes are separate events, the rows of the session table and their unique index
included; the agent's session manager has its own runs; `TerminalLink` is one system of the hub and
the managers of all connections, with what is written and answered between them in order, and
`TerminalShells` has its runs from a ticket to a shell and back.

**Network report, rollup, administrators** (`Rounding`, `NetworkReport`, `NetworkGroups`,
`NetworkTheorems`, `Rollup`, `AdminMembership`). Aggregates over exact reals with the rounding the
code does, and transactions that interleave statement by statement.

Seven things the code does that its names or comments do not lead one to expect are stated as lemmas:

- A cron step so large that adding it wraps a 64-bit integer makes the field match minutes it does
  not name (`CronParser.HugeStepStoresMore`); `CronField.StoresWhatItNames` says exactly when.
- Cancelling an uninstall task, or a heartbeat that finds it late, leaves the server `pending`
  for ever unless it is force-deleted (`FleetTheorems.CancelStrands`,
  `FleetTheorems.PendingCanMoveExactly`).
- With two alert workers an alert can start firing although its condition has just been reset
  (`AlertTheorems.TwoWorkersFireEarly`), exactly when the reset is committed between the firing
  worker's upsert and its transition (`AlertTheorems.StartsInTimeExactly`).
- When the update that frees a session's row fails, which the code ignores, or the answer to its
  insert is lost, that server gets no terminal session again as long as the row is there, because the
  unique index refuses every further one. `TerminalRows.BecomesStuckExactly` says which steps do it,
  `TerminalRows.LostInsertSticks` and `TerminalRows.FailedUpdateSticks` are runs that do, and
  `TerminalRows.SessionPossibleExactly` says that a server can have a session in some continuation if
  and only if it is not in that state.
- Two alert workers can send one reminder each at the same moment, exactly when the second read the row
  before the first had stored its reminder (`AlertReminders.RemindersApartExactly`,
  `AlertReminders.TwoWorkersRemindTwice`).
- The limit that is to keep heartbeats from retrying a failed automatic update at once looks for the
  configured version, not for the one that is queued: it holds as long as the two are the same
  (`FleetTasks.UpdatesSpaced`) and not otherwise (`FleetTasks.RetriedAtOnce`).
- A terminal session can start after its ticket has expired, since expiry is checked at admission
  (`TerminalTheorems.SessionCanStartAfterExpiry`); `TerminalTheorems.SessionInTimeExactly` says exactly when.

The agent's `close` does not look at the session a message names (`TerminalLink.CloseStopsItsOwnExactly`);
that this never stops the shell of a session the hub still holds is proved of the whole system
(`TerminalLink.CloseSparesHeld`).

## Model

| member | source | states |
|---|---|---|
| Calendar.FieldsOfDate | agent/internal/collector/snapshot.go:420-432 | Year, month, day, hour and minute read back what a valid civil time was made of, for every year |
| Calendar.DateOfFields | agent/internal/collector/snapshot.go:420-432 | Making a time of an instant's own fields gives the instant back |
| Calendar.MonthUnique | agent/internal/collector/snapshot.go:420-421 | A day number lies in one month of one year only, so that the accessors are the only possible ones |
| Calendar.DateOrder | agent/internal/collector/snapshot.go:417-421 | A later civil date is a later day, leap years included |
| Calendar.MonthLengths | agent/internal/collector/snapshot.go:420-423 | From the first of a month to the first of the next lie 30 days for April, June, September and November, 28 or 29 for February by the leap-year rule, and 31 for the others |
| Calendar.Epoch | agent/internal/collector/snapshot.go:451-458 | The first of January 1970 is day 719162 and a Thursday |
| Calendar.WeekdaysInOrder | agent/internal/collector/snapshot.go:451-458 | Each day is followed by the next weekday, Saturday by Sunday |
| CronSchedule.MonthJump | agent/internal/collector/snapshot.go:420-423 | Everything up to the first of the next month lies in the cursor's month, December and normalised month 13 included |
| CronSchedule.DayJump | agent/internal/collector/snapshot.go:424-427 | Everything up to the next midnight lies on the cursor's day, also on the last of a month |
| CronSchedule.HourJump | agent/internal/collector/snapshot.go:428-431 | Everything up to the next full hour lies in the cursor's hour |
| CronSchedule.SkipUnmatched | agent/internal/collector/snapshot.go:419-437 | Skipping minutes that do not match leaves the answer of the minute-by-minute search unchanged |
| CronSchedule.EveryMinuteIsEarliest | agent/internal/collector/snapshot.go:411-439 | The reference search returns exactly the earliest matching minute up to the limit, or nothing if there is none |
| CronSchedule.Search | agent/internal/collector/snapshot.go:417-438 | The loop with its month, day and hour jumps ends and agrees with the minute-by-minute search for every schedule and start |
| CronSchedule.SundayFromSeven | agent/internal/collector/snapshot.go:504-511 | The weekday set is the numbers given with 7 read as 0 |
| CronSchedule.SundayIsZeroOrSeven | agent/internal/collector/snapshot.go:504-511 | Writing Sunday as 0, as 7 or as both gives the same weekdays |
| CronSchedule.RunExistsExactly | agent/internal/collector/snapshot.go:417-438 | A parsed schedule has a run in its one-year window if and only if it can run in every year or an allowed minute of a leap day lies in the window |
| CronField.Count | agent/internal/collector/snapshot.go:575-577 | The counting loop ends even when its counter wraps, and stores exactly the numbers that 64-bit counting meets |
| CronField.ParseCronField | agent/internal/collector/snapshot.go:523-580 | The parsing loop computes the field's set and wildcard flag, or refuses it, as its specification over the comma-separated parts says |
| CronField.StoredInRange | agent/internal/collector/snapshot.go:523-580 | An accepted field stores everything it names and at least one number within its limits |
| CronField.StoresWhatItNames | agent/internal/collector/snapshot.go:523-580 | A field stores exactly the union of the stepped ranges it names if and only if every part's step added to its largest number stays within 64 bits |
| CronField.NamedExactly | agent/internal/collector/snapshot.go:523-580 | A number is named by a field if and only if one of its parts reaches it from the start of its range in whole steps |
| CronField.PartExactly | agent/internal/collector/snapshot.go:527-571 | A part is accepted, as a stepped range within the limits, if and only if its text is a star, a number or two numbers with a minus sign between, perhaps followed by a slash and a positive number |
| CronField.MalformedRefused | agent/internal/collector/snapshot.go:527-571 | Empty parts, parts with a letter or another foreign character, and parts with a second slash or minus sign are refused |
| Text.AtoiExactly | agent/internal/collector/snapshot.go:545-566 | A number is read if and only if it is an optional sign and digits whose value fits in 64 bits |
| CronParser.FieldExactly | agent/internal/collector/snapshot.go:523-580 | A field is accepted if and only if each comma-separated part, white space around it dropped, is the text of a stepped range within the limits; it has exactly the numbers of these ranges if their steps fit in 64 bits, and is a wildcard exactly if it is a single star |
| CronParser.PrintedFieldParses | agent/internal/collector/snapshot.go:523-580 | Parsing a printed list of stars, numbers, ranges and steps gives the numbers they stand for, or nothing exactly when one is out of the limits |
| CronParser.HugeStepStoresMore | agent/internal/collector/snapshot.go:575-577 | A concrete field whose step wraps the counter stores a minute it does not name |
| CronParser.PrintedScheduleParses | agent/internal/collector/snapshot.go:460-521 | Five printed fields parse if and only if every item keeps to its field's limits, and the schedule has exactly the minutes, hours, days, months and weekdays the items stand for, 7 being Sunday, with a wildcard exactly where a field is a single star |
| CronParser.ParsedSchedules | agent/internal/collector/snapshot.go:460-521 | Every schedule that parses has non-empty sets within their limits, and a wildcard day field has all days |
| CronParser.DayRule | agent/internal/collector/snapshot.go:451-458 | With one day field `*` only the other restricts the day; with both restricted either suffices |
| CronParser.NamedSchedules | agent/internal/collector/snapshot.go:460-478 | The seven names, also between white space, run on the hour, at midnight, on Sundays, on the first of the month and on 1 January, exactly as named; no other word with an `@` parses |
| CronParser.NextCronRun | agent/internal/collector/snapshot.go:411-439 | The whole function, from text to minute, equals parsing followed by the minute-by-minute search, whose parts are characterised by FieldExactly, NamedSchedules, NothingExactly and NextRunIsEarliest |
| CronParser.NothingExactly | agent/internal/collector/snapshot.go:411-439 | The result is nil if and only if the text does not parse, or the schedule names no month and day of every year and no allowed leap-day minute lies within the year |
| CronParser.NextRunIsEarliest | agent/internal/collector/snapshot.go:411-439 | A result is strictly after the given time and within a year; its minute, hour, month and day fields are in the sets of the schedule, with two restricted day fields as alternatives, and no earlier minute is like that |
| CronLines.ParseCronFile | agent/internal/collector/snapshot.go:366-409 | The loop over the lines collects, in order, the jobs of the lines that are not blank, comments, assignments or too short |
| CronLines.JobOfWords | agent/internal/collector/snapshot.go:366-409 | A line of words is a job if and only if it is no comment, no assignment and has a word after the schedule and the owner; schedule, owner and command are then its first, next and remaining words |
| CronLines.CommentLine | agent/internal/collector/snapshot.go:370-372 | A line that begins with `#`, after white space or not, is no job |
| CronLines.LineRoundTrip | agent/internal/collector/snapshot.go:366-409 | Printing a job parsed from any line as one canonical line and parsing that with the same source gives the same schedule, owner, command and next run |
| CronLines.FileRoundTrip | agent/internal/collector/snapshot.go:366-409 | Printing all jobs of any file, one canonical line each, and parsing the result gives the same list of jobs |
| CronLines.PreimageInjective | agent/internal/collector/snapshot.go:397 | On parts without NUL two jobs have the same id preimage if and only if source, owner, schedule and command agree |
| CronLines.NulConfuses | agent/internal/collector/snapshot.go:397 | Two lines of one system crontab give two different jobs with the same preimage, for any source and time |
| CronLines.OwnPreimageExactly | agent/internal/collector/snapshot.go:397 | A job shares its preimage with no other combination of parts if and only if none of its parts contains a NUL |
| CronLines.WrapperAgreesExactly | agent/cmd/agent/cron_wrapper.go:68-77 | Given a discovered job's source, owner, schedule and command words the wrapper derives that job's id if and only if source and owner have no outer white space and the source is not blank |
| CronLines.WrapperId | agent/cmd/agent/cron_wrapper.go:62-77 | A given id is used as it is, trimmed; without one the id is derived unless source or schedule is blank; nothing is reported without a command |
| FleetProofs.StepKeeps | backend/internal/core/agent_api/handler.go:274-983 | Every statement of every handler, in any state that satisfies the invariant and for any arguments, leads to a state that satisfies it |
| FleetProofs.RunKeeps | backend/internal/core/agent_api/handler.go:274-983 | Every reachable state satisfies the invariant on identifiers, tokens, uninstall, enrollment, hand-outs and actions |
| FleetTheorems.UninstallStates | backend/internal/core/server/repository.go:475-566 | Over all runs a server has at most one active uninstall task, is then pending with that task's token, and stores a token hash exactly while pending or uninstalling |
| FleetTheorems.OnlyCurrentConfirmations | backend/internal/core/agent_api/handler.go:936-983 | An accepted confirmation is for the newest request of its server, which is uninstalling, after that task's completed report was committed |
| FleetTheorems.ReportedByEvent | backend/internal/core/agent_api/handler.go:827-884 | A task counts as reported only if some earlier event of the run committed its completed report against a row that accepted it |
| FleetTheorems.HandedOutOnce | backend/internal/core/agent_api/handler.go:655-672 | No task is handed out by two heartbeats, and one that was handed out never waits again |
| FleetTheorems.RowsOnward | backend/internal/core/agent_api/handler.go:637-672 | No event of any kind returns a task to the queue or reopens a closed one |
| FleetTheorems.ActedOnceAfterReport | agent/cmd/agent/main.go:665-701 | For every pattern of lost messages an action runs at most once for its task, and only after the task's completed report was committed |
| FleetTheorems.NeverActsAfterClosing | backend/internal/core/server/handler.go:308-357 | Once a cancel, expiry, time-out or deletion has closed a task before its report, its action never runs in any continuation of the run |
| FleetTheorems.OneCredentialAccepted | backend/internal/core/agent_api/handler.go:511-527 | Of all credentials issued for one enrollment token, over any mix of enrolling, rolling back and heartbeats, at most one is ever accepted |
| FleetTheorems.AcceptedForever | backend/internal/core/agent_api/handler.go:274-318 | What an accepted credential was issued for never changes afterwards |
| FleetTheorems.EnrollmentCloses | backend/internal/core/agent_api/handler.go:366-406 | After an accepted heartbeat neither enrolling nor rolling back that server is possible in any continuation |
| FleetTheorems.StrandedForever | backend/internal/core/agent_api/handler.go:637-651 | A pending server without an active uninstall task stays so in every continuation that does not force-delete it |
| FleetTheorems.ActiveCanFail | backend/internal/core/server/repository.go:264-323 | A pending server with an active uninstall task has a continuation in which the clean-up marks it failed |
| FleetTheorems.PendingCanMoveExactly | backend/internal/core/server/repository.go:264-323 | A pending server can leave that state without force-delete if and only if it has an active uninstall task |
| FleetTheorems.UninstallingCanFail | backend/internal/core/server/repository.go:264-323 | An uninstalling server has a continuation, without force-delete, in which the clean-up marks it failed |
| FleetTheorems.UninstallCanEndExactly | backend/internal/core/server/repository.go:264-323 | A pending or uninstalling server can fail without force-delete if and only if it is not a pending one without an active uninstall task |
| FleetTheorems.CancelStrands | backend/internal/core/agent_api/handler.go:637-651 | Cancelling the active uninstall task strands its server, and so does a heartbeat that finds it expired before it was claimed or overdue after it was |
| FleetTasks.UninstallSucceeds | backend/internal/core/agent_api/handler.go:936-983 | A server that waits for an uninstall whose task can still be claimed has a continuation in which its agent works on it, reports and confirms, and the server and its tasks are gone without a force-delete, every other row as it was |
| FleetTasks.StepCarries | backend/internal/core/agent_api/handler.go:274-983 | No event changes anything of a task but its status and start, and a task that is new was created at that moment by a request, an order or an automatic update |
| FleetTasks.HandedOutInTime | backend/internal/core/agent_api/handler.go:655-672 | Every hand-out of a run comes of a heartbeat of the task's server that took at most five tasks and found this one waiting and in time |
| FleetTasks.OneActiveUpdate | backend/migrations/20260718_013_repair_server_task_lifecycle.sql:43-47 | Over all runs at most one update of a server waits or is being worked on, whoever asked for it |
| FleetTasks.UpdatesSpaced | backend/internal/core/agent_api/handler.go:597-634 | If the version offered was always the configured one, two automatic updates of a server to the same version are created more than an hour apart, whatever became of the first |
| FleetTasks.RetriedAtOnce | backend/internal/core/agent_api/handler.go:597-634 | For any two different versions, one configured and the other offered, a run in which a failed automatic update is queued again at the same moment |
| FleetStore.Store.Uninstalls | backend/internal/core/server/repository.go:475-566 | Between any two handlers the tables have at most one active uninstall for a server, which waits with that task's token, and a token exactly while a server waits or is uninstalling |
| FleetStore.Store.CreateServer | backend/internal/core/server/repository.go:152-163 | The new row has all its columns as given, so that it can be enrolled with its own token and no other, and only if that has a lifetime |
| FleetStore.Store.Enroll | backend/internal/core/agent_api/handler.go:274-318 | Enrolls exactly the active server that holds the unused, unexpired token: the new credential, five minutes for the rollback token, nothing else; refuses without changes if there is none |
| FleetStore.Store.EnrollRollback | backend/internal/core/agent_api/handler.go:366-406 | Rolls back a server that holds the unexpired rollback token, has not completed and is the one asked for, taking its credential and making its token usable again; refuses otherwise without changes |
| FleetStore.Store.RecordHeartbeat | backend/internal/core/agent_api/handler.go:511-527 | Accepted for exactly the server that holds the credential, whose bootstrap is completed, whose rollback token goes and whose last contact is now |
| FleetStore.Store.ConfirmVersion | backend/internal/core/agent_api/handler.go:581-595 | Exactly the updates of the server that are being worked on are completed |
| FleetStore.Store.QueueUpdate | backend/internal/core/agent_api/handler.go:597-634 | An update is queued if and only if the policy allows it, the server is not being removed, no update of it is under way and none to the configured version was created within the hour |
| FleetStore.Store.ExpireStaleUpdates | backend/internal/core/server/handler.go:287-306 | Exactly the updates that waited a quarter of an hour or past their deadline expire, and exactly those that ran too long time out |
| FleetStore.Store.CreateTask | backend/internal/core/server/handler.go:434-459 | The task waits for 24 hours; a second active update of a server is not inserted |
| FleetStore.Store.ExpireTasks | backend/internal/core/agent_api/handler.go:637-651 | Afterwards no task of the server is past its deadline or overdue and only such tasks have been closed; an uninstall among them leaves its server stranded |
| FleetStore.Store.ClaimTasks | backend/internal/core/agent_api/handler.go:655-672 | Claims at most five waiting tasks, uninstalls before others and older before newer, and fewer only if no task is left waiting; a claimed task is processed from now on and is overdue exactly when its timeout has passed |
| FleetStore.Store.FirstFive | backend/internal/core/agent_api/handler.go:655-672 | The selection loop picks a five-element prefix of the dispatch order, or all that wait |
| FleetStore.Store.ReportTaskResult | backend/internal/core/agent_api/handler.go:827-884 | Accepted exactly for a task in processing from the holder of its server's credential; only that task changes, and of an uninstall the server, which was waiting with that task's token and afterwards has no active uninstall; for a report that an agent of the run sends the run goes on |
| FleetStore.Store.ConfirmUninstall | backend/internal/core/agent_api/handler.go:936-983 | Accepted exactly while the server holds this uninstall task's token; the row then goes with all its tasks, or has failed without a token; the agent that was handed the task finds its server uninstalling and its report committed; for a confirmation that an agent of the run sends the run goes on |
| FleetStore.Store.RequestAgentUninstall | backend/internal/core/server/repository.go:475-566 | Accepted exactly for the owner's server that was seen within a minute, runs Linux, supports it and holds no uninstall token; the new task, for 15 minutes, is then its only active uninstall and its only waiting task, and nothing else has changed |
| FleetStore.Store.ExpireStaleAgentUninstalls | backend/internal/core/server/repository.go:264-323 | A task changes if and only if it is an uninstall of the user's server that was not claimed, or not finished, in time; a server if and only if it is the user's and has such a task or is uninstalling past its confirmation time, and has then failed without a token |
| FleetStore.Store.SetAgentAutoUpdate | backend/internal/core/server/repository.go:355-397 | Only the owner's server row changes; switched off, no automatic update of it waits any more, and only such tasks have been expired |
| FleetStore.Store.CancelTask | backend/internal/core/server/handler.go:308-357 | What was to be cancelled, one task or all updates of an owned server, is no longer active and nothing else has changed; an uninstall leaves its server stranded |
| FleetStore.Store.Delete | backend/internal/core/server/repository.go:570-579 | The owner's server and its tasks are gone, every other row is as before, and every task left has its server |
| FleetStore.ProcessTask | agent/cmd/agent/main.go:497-703 | The report is always sent first; a restart, update or uninstall action follows if and only if the work succeeded and the report was acknowledged, and only once |
| Alerts.NotificationsAlternate | backend/internal/scheduler/alert_job.go:409-609 | For any interleaving of any number of workers the committed notifications of a rule and server alternate, starting with firing, and the stored status is firing exactly when the last one was |
| AlertTheorems.StartIsFirstTrue | backend/internal/scheduler/alert_job.go:377-405 | For any interleaving the stored start is the time of the first true evaluation, by whichever worker, of the run that is still unbroken, and there is none exactly when there is no such run |
| AlertTheorems.StartsInTimeExactly | backend/internal/scheduler/alert_job.go:204-224 | For any interleaving of any number of workers a threshold alert that starts firing stands at the end of an unbroken run of the configured length if and only if no reset of it was committed between the worker's upsert and its transition |
| AlertTheorems.FiresOnlyAfterDuration | backend/internal/scheduler/alert_job.go:204-224 | If no other worker resolves alerts, a threshold alert starts firing only at the end of an unbroken run at least as long as configured |
| AlertTheorems.TwoWorkersFireEarly | backend/internal/scheduler/alert_job.go:377-433 | For every accepted threshold rule, a run in which the first worker's second evaluation passes the test, the second worker resets the alert, and the first one's transition starts it with no run behind it |
| AlertReminders.RemindersApartExactly | backend/internal/scheduler/alert_job.go:430-464 | For any interleaving two reminders of one unbroken firing are at least the interval apart if and only if the worker of the second read the row after the first was stored |
| AlertReminders.OneWorkerReminds | backend/internal/scheduler/alert_job.go:430-464 | The reminders that one worker sends in one unbroken firing are at least the interval apart |
| AlertReminders.TwoWorkersRemindTwice | backend/internal/scheduler/alert_job.go:430-464 | For every accepted threshold rule with reminders, a run in which two workers send one each at the same moment |
| AlertStore.AlertJob.Consistent | backend/internal/scheduler/alert_job.go:377-609 | Between the methods a key's notifications alternate and agree with its status, and its stored start is that of the unbroken run |
| AlertStore.AlertJob.ConditionSatisfiedLongEnough | backend/internal/scheduler/alert_job.go:377-405 | True exactly if the alert is firing already, the rule does not wait, or the unbroken run of true evaluations, this one included, has lasted as long as configured; the row keeps its start or gets it now, and nothing else changes |
| AlertStore.AlertJob.HandleFiring | backend/internal/scheduler/alert_job.go:409-510 | One notification exactly on a committed transition from not firing; of an alert that is firing already a reminder exactly if the rule has reminders and the last message is none or at least their interval old, which moves that time and nothing else; a threshold alert that starts has been true for the configured time exactly if no reset came since the upsert |
| AlertStore.AlertJob.HandleResolved | backend/internal/scheduler/alert_job.go:513-610 | Committed, the alert is fine, without a start and a last message, with one notification exactly if it was firing; otherwise nothing changes |
| AlertStore.AlertJob.DeleteRule | backend/internal/core/alert/repository.go:361-405 | Exactly the rule's states are gone and no notification refers to it any more: every other key's notifications are as they were |
| AlertStore.AlertJob.DeleteServer | backend/migrations/20260721_019_dashboard_notifications.sql:11-17 | Exactly the server's states are gone and no notification refers to it any more |
| AlertStore.AlertJob.Evaluate | backend/internal/scheduler/alert_job.go:200-226 | With nothing in between, an alert whose condition is true fires afterwards if and only if it did before, the rule does not wait or the condition has been true for the configured time; one notification marks each change, and without data nothing changes |
| TerminalProofs.RunKeeps | backend/internal/core/terminal/handler.go:101-214 | Every reachable state of the hub satisfies the invariant on tickets, connections, sessions, session rows, relays and written messages |
| TerminalTheorems.OneSessionPerServer | backend/migrations/20260718_014_terminal_sessions.sql:18-20 | However many browsers pass the busy check together, the hub never holds two sessions of one server, nor one while another's end is still under way |
| TerminalTheorems.NoRelayOutlivesConnection | backend/internal/core/terminal/service.go:86-101 | In every interleaving, once a connection is unregistered and its handler has gone through what the scan found, no session over it is in the hub; the relaying handler of an ended session leaves its loop with its next step, and its browser is closed or can be closed next |
| TerminalTheorems.EndedLeavesLoop | backend/internal/core/terminal/handler.go:184-213 | After at most two more steps of the goroutine that ends a session its browser is closed, so that its handler no longer waits, and the handler leaves its loop with its next step, at the latest after one message that had already come |
| TerminalTheorems.OldConnectionKeepsReplacement | backend/internal/core/terminal/service.go:76-90 | After a reconnect the hub keeps the new connection whatever the displaced one's handler still does |
| TerminalTheorems.RegisteredIsLive | backend/internal/core/terminal/service.go:76-90 | The hub's connection of a server is one of that server and has not been unregistered |
| TerminalTheorems.TicketOpensOneSession | backend/internal/core/terminal/handler.go:110-148 | A ticket opens at most one session, for the server and user it was issued for, and only if taken and checked before it expired |
| TerminalTheorems.SessionInTimeExactly | backend/internal/core/terminal/handler.go:115-148 | A session starts within the life of its ticket if and only if the clock had not passed the expiry at its insert into the hub |
| TerminalTheorems.SessionCanStartAfterExpiry | backend/internal/core/terminal/handler.go:115-148 | The check is at admission: a session admitted in time can still be inserted after the ticket's expiry |
| TerminalTheorems.EndsOnlyItself | backend/internal/core/terminal/service.go:120-160 | The step that ends a session is its own handler's, its own connection's, or the end of its thirty minutes |
| TerminalTheorems.MessageEndsNamedSession | backend/internal/core/terminal/service.go:120-142 | An error or exit message removes exactly the session it names, and only over that session's own connection |
| TerminalTheorems.Conversation | backend/internal/core/terminal/service.go:144-160 | Over one connection each session's start and close are written at most once, the close directly after the start and after the hub ended the session, and a start only when every session named before has left the hub |
| TerminalTheorems.NoStartBetween | backend/internal/core/terminal/handler.go:141-160 | No other message, so no other session's start, stands between a session's start and its close |
| TerminalSteps.SessionOpensExactly | backend/internal/core/terminal/handler.go:110-153 | A browser that nothing comes in between of gets its session if and only if its ticket is there and has not expired and its server has an open connection, no session and no active row; the session is of the ticket's server and user, over that connection, and was announced to it |
| TerminalSteps.CloseOwedExactly | backend/internal/core/terminal/handler.go:155-161 | The step that ends a session owes its agent a close if and only if it is the browser handler leaving its loop or the end of the thirty minutes, and not if the agent ended it or could not be told of it |
| TerminalSteps.EndGoesOn | backend/internal/core/terminal/service.go:144-172 | The close is written to the session's own connection alone, only then can the browser be closed, and only then the row be freed |
| TerminalRows.RowFreedOrStuck | backend/internal/core/terminal/repository.go:78-90 | The update of a session's row frees its server if and only if it succeeds; otherwise the server is stuck |
| TerminalRows.LostStuck | backend/internal/core/terminal/repository.go:64-67 | An insert whose answer is lost leaves its server stuck at once |
| TerminalRows.BecomesStuckExactly | backend/internal/core/terminal/service.go:157 | From any reachable state a step leaves a server stuck if and only if it is a failed update of the row of one of its sessions, or an insert of such a row whose answer is lost |
| TerminalRows.LostInsertSticks | backend/internal/core/terminal/handler.go:133-139 | A run in which the answer to the insert is lost and the server is stuck without ever having had a session |
| TerminalRows.FailedUpdateSticks | backend/internal/core/terminal/handler.go:150-153 | A run in which the agent cannot be told of its session, the update that closes the row fails and the server is stuck |
| TerminalRows.SessionPossibleExactly | backend/migrations/20260718_014_terminal_sessions.sql:18-20 | A server can have a session in some continuation of a run if and only if it is not stuck |
| TerminalRows.StuckForever | backend/internal/core/terminal/handler.go:133-139 | A server whose row is stuck has no session in any continuation of the run |
| TerminalStore.HubStore.OneSession | backend/internal/core/terminal/service.go:59-65 | Between the hub's methods two sessions of one server in its map are the same session |
| TerminalStore.HubStore.CreateTicket | backend/internal/core/terminal/handler.go:80-90 | The purge loop leaves exactly the tickets that have not expired and are not of the pair, unchanged, and adds the new one for thirty seconds |
| TerminalStore.HubStore.TakeTicket | backend/internal/core/terminal/handler.go:110-118 | A ticket leaves the map in any case and is good exactly if it was there and had not expired |
| TerminalStore.HubStore.UnregisterAgent | backend/internal/core/terminal/service.go:86-101 | Afterwards the map has exactly the sessions of other connections, and the registered connections are exactly the others |
| TerminalStore.HubStore.HasActiveSession | backend/internal/core/terminal/service.go:109-118 | True exactly if some session of the server is in the map |
| TerminalStore.HubStore.OpenSession | backend/internal/core/terminal/handler.go:141-148 | The session put in is new and the only one of its server in the map |
| TerminalStore.HubStore.DispatchAgentMessage | backend/internal/core/terminal/service.go:120-142 | A session leaves the map exactly if it is the one an error or exit names and belongs to the connection the message came over; for a session the agent was told of the run goes on |
| TerminalStore.HubStore.RegisterAgent | backend/internal/core/terminal/service.go:76-84 | Only the server's entry changes, to the new connection, and the one that was there is handed back, which is never the new one |
| TerminalAgent.AtMostOneShell | agent/internal/terminal/session.go:58-108 | Over all runs of one connection's manager at most one shell's process runs, and a shell's exit is reported exactly when its process is gone |
| TerminalAgent.ShellReceives | agent/internal/terminal/session.go:165-179 | Over all runs what a shell has received is, in order, the data of the valid inputs that its PTY took and that named its session while it was current: nothing is lost, repeated or misdirected |
| TerminalAgent.TypedIntoOwnSession | agent/internal/terminal/session.go:165-179 | Everything a shell received came in an input message for its own session |
| TerminalAgent.SessionManager.OneShell | agent/internal/terminal/session.go:58-108 | Between the manager's methods at most one process runs, and it is the current shell's |
| TerminalAgent.SessionManager.HandleStart | agent/internal/terminal/session.go:58-92 | With a current shell, or without a PTY, the only effect is an error for the new session; otherwise exactly one running shell of that session is added and current, its size cut to 20 to 400 columns and 5 to 200 rows |
| TerminalAgent.SessionManager.HandleInput | agent/internal/terminal/session.go:165-179 | Valid data for the current shell's session is added to what that shell has received, or answered with one error if the PTY does not take it; any other input does nothing |
| TerminalAgent.SessionManager.HandleResize | agent/internal/terminal/session.go:181-189 | Only the current shell of that session changes, to the size cut to the limits |
| TerminalAgent.SessionManager.HandleClose | agent/internal/terminal/session.go:191-203 | The current shell has been told to terminate, whatever session the message names, so that every running process has; nothing else changes |
| TerminalAgent.SessionManager.FinishShell | agent/internal/terminal/session.go:205-215 | That shell alone is cleared; then no shell is current and every shell of the connection has been cleared |
| TerminalAgent.SessionManager.ProcessEnded | agent/internal/terminal/session.go:96-107 | The exit of that shell is reported once, and no process is left running |
| TerminalLink.RunKeeps | agent/internal/terminal/client.go:100-162 | In every reachable state of the hub and all managers a manager knows only sessions whose start it has read, no session whose error or exit has arrived is in the hub, and after a disconnect every shell has been told to stop |
| TerminalLink.NextReplyKnown | backend/internal/core/terminal/service.go:120-142 | Every reply in flight names a session that was started over its connection |
| TerminalLink.StartRefused | agent/internal/terminal/session.go:58-64 | A session that reaches an agent whose shell has not been cleared leaves all shells as they are, none of which is its own, and is answered with an error |
| TerminalLink.RefusalEndsRefused | backend/internal/core/terminal/service.go:120-142 | In every continuation of such a refusal the hub does not hold the session once the refusal has been dispatched, and the dispatching step removes that session alone and touches no manager |
| TerminalLink.CloseSparesHeld | agent/internal/terminal/session.go:191-203 | When an agent reads a close, none of its shells is of a session the hub still holds |
| TerminalLink.HeldShellsStay | agent/internal/terminal/session.go:45-56 | So reading a close changes no shell of a session the hub holds |
| TerminalLink.OneShellPerServer | agent/internal/terminal/client.go:120-124 | Over all connections a server ever had at most one process runs that has not been told to terminate |
| TerminalLink.CloseStopsItsOwnExactly | agent/internal/terminal/session.go:191-203 | The manager by itself stops no other session's shell on a close if and only if it has no shell, has stopped it already, or the shell is that session's |
| TerminalShells.SessionReachesShell | agent/internal/terminal/client.go:100-162 | Whatever has happened before, a browser with a good ticket for a free server whose agent has read everything and has no shell has a continuation in which the hub holds its session over that agent's connection and the agent runs its shell |
| TerminalShells.ShellEnds | agent/internal/terminal/session.go:96-107 | When the process of such a shell ends and its exit has arrived, the hub holds that session no longer and every other one as before |
| TerminalShells.AgentsReady | agent/internal/terminal/client.go:100-162 | A run with agents of two servers, one of which has reconnected, that leads to such a state |
| NetworkReport.RunTcpProbe | backend/internal/core/server/network_diagnostics.go:412-490 | Successes are the attempts that connected and failures the others, minimum and maximum are attained, and the average lies between them and within 0.05 milliseconds of the mean of the times |
| NetworkReport.ProbeTarget | backend/internal/core/server/network_diagnostics.go:493-655 | A target is pinged if and only if it is not a TCP one and ping is available; the figures are those of that method, to one decimal; a pinged target is critical, a warning or optimal by its own positive limits or the defaults, those of a gateway being 20 and 80 milliseconds |
| NetworkReport.TcpNames | backend/internal/core/server/network_diagnostics.go:522-525 | A target is a TCP one if and only if its protocol is those three letters in any case, white space around them dropped |
| NetworkReport.AggregatePillar | backend/internal/core/server/network_diagnostics.go:682-753 | Totals are those of the probes; there is a loss exactly if anything was pinged, within 0.05 of the percentage of failed pings; the latency is within 0.05 of the mean over all answers to pings, or to TCP probes in a group without a pinged target |
| NetworkReport.LatencyWithinProbes | backend/internal/core/server/network_diagnostics.go:714-750 | The weighted, rounded latency of a group lies within the latencies of the successful probes of the method it averages |
| NetworkReport.LossIsOfPings | backend/internal/core/server/network_diagnostics.go:694-732 | A group reports a loss exactly when it holds counted pings, as a percentage between 0 and 100 of the pings alone and zero without failures; its method names the kinds of probe in it |
| NetworkReport.TenthsStayWithin | backend/internal/core/server/network_diagnostics.go:464-486 | Rounding to one decimal does not leave an interval with one-decimal ends |
| NetworkReport.SavedStays | backend/internal/core/server/repository.go:1047-1070 | Tag and method of a stored target are unchanged by the normalisation that probing repeats; it has a positive number of probes, 5 unless one was given, and its other settings as they were |
| NetworkGroups.GroupByTag | backend/internal/core/server/network_diagnostics.go:934-950 | The grouping loop gives every tag its probes and targets in order, and the tags as they first appear |
| NetworkGroups.BuildGroups | backend/internal/core/server/network_diagnostics.go:934-992 | There is a group for every tag, "default" for none, with the figures of its probes; it is unavailable, critical, a warning, reachable or optimal exactly by the order of tests of the code, against the means of the positive limits of its targets, or 20 percent, 50 and 150 milliseconds |
| NetworkGroups.OrderAsSeen | backend/internal/core/server/network_diagnostics.go:937-946 | Of two groups the one that comes first has an entry before every entry of the other |
| NetworkGroups.ReportConserved | backend/internal/core/server/network_diagnostics.go:934-992 | Summed over the groups, probes, successes and failures are those of all probes: each probe is in exactly one group |
| NetworkGroups.GroupsPermute | backend/internal/core/server/network_diagnostics.go:934-992 | Groups do not depend on the order of the targets |
| NetworkTheorems.RebuiltAgrees | backend/internal/core/server/network_diagnostics.go:1076-1173 | The report rebuilt from stored results has the live report's groups, for any two orders of the targets, if no ICMP target fell back to TCP |
| NetworkTheorems.RebuiltAgreesExactly | backend/internal/core/server/network_diagnostics.go:573-602 | If no group mixes methods, the groups agree if and only if no ICMP target fell back to TCP |
| NetworkTheorems.MixedGroupHidesFallback | backend/internal/core/server/network_diagnostics.go:573-602 | In a group that mixes methods a fallback can go unnoticed, so the condition on groups is needed |
| NetworkTheorems.RebuiltIsProbe | backend/internal/core/server/network_diagnostics.go:1076-1130 | The probe rebuilt from a stored result is the one it was made of, but for the latencies of one without an answer |
| Rollup.IncrementalIsBatch | backend/internal/core/website/repository.go:145-178 | After any checks of a day totals, failures and downtime are those of all checks at once, the uptime is within 0.005 of the percentage that did not fail, the status is operational without a failure, degraded with at least 95 in 100 successes and an outage below, and the incident is the last failure kind |
| Rollup.AverageDrifts | backend/internal/core/website/repository.go:167 | The repeatedly rounded average differs from the true mean of n checks by less than 0.0025 * (n + 1) |
| Rollup.RowsAreSeparate | backend/internal/core/website/repository.go:162 | A row depends only on its own entity's checks of its own day, in their order |
| Rollup.RollupTable.Upsert | backend/internal/core/website/repository.go:145-178 | Afterwards the row of that entity and day has the figures of its earlier checks and this one taken together, the average within 0.0025 * (n + 1) of the mean, and no other row has changed |
| AdminMembership.AlwaysAnAdmin | backend/internal/core/admin/repository.go:76-164 | Starting with an administrator, no interleaving of role changes, deletions and creations reaches a state without one |
| AdminMembership.CountStillHolds | backend/internal/core/admin/repository.go:83-103 | At commit the count read under the lock is still a lower bound and the role read is still the user's |
| AdminMembership.Linearizes | backend/internal/core/admin/repository.go:76-164 | A commit has the effect, and a refusal the reason, that the whole operation would have if run alone at that moment |
| AdminMembership.Repository.UpdateUserRole | backend/internal/core/admin/repository.go:76-111 | Without interleaving: refused exactly for a missing user or for the only administrator who would stop being one, otherwise that role changes alone; an administrator remains if there was one |
| AdminMembership.Repository.DeleteUser | backend/internal/core/admin/repository.go:132-164 | Without interleaving: refused exactly for a missing user or the only administrator, otherwise that user goes alone; an administrator remains if there was one |

## Left out

- Calendar.DateOfFields: no seconds and no leap seconds; the search only ever looks at whole minutes.
- CronField.ParseCronField: strings are sequences of characters, not UTF-8 bytes; invalid encodings are not modelled.
- CronLines.WrapperAgreesExactly: the wrapper's arguments are the white-space fields of the command; the shell's quoting is not modelled, and SHA-256 is represented by its preimage.
- FleetProofs.StepKeeps: hashes are injective, tokens and ids fresh, statements atomic; a heartbeat's claim is any set of at most five waiting tasks, the order being proved of FleetStore.Store.ClaimTasks.
- FleetTheorems.ActedOnceAfterReport: the agent's channel between heartbeat and worker is not modelled; a hand-out that is never worked on counts as a lost message.
- FleetStore.Store.ReportTaskResult: that the run goes on is claimed for the messages the agents send; what a forged request does to the tables is stated, but it is no event of the run. The same holds of FleetStore.Store.ConfirmUninstall.
- FleetStore.ProcessTask: the work before the report is one outcome, so log reading, command output and their formats are not modelled.
- Alerts.NotificationsAlternate: the statements of one transaction are one step, workers and database have one clock, and a transaction is committed within the thirty seconds of its run's context; what the telemetry says is free, the retention job that deletes old notifications and the channels, texts and cool-down formatting are not modelled.
- AlertStore.AlertJob.HandleFiring: the first reminder after a transition on an existing row can come at the next tick, because the notified time is kept as the code keeps it; a reminder's message goes out even if its time could not be stored, and only stored ones are counted in AlertReminders.RemindersApartExactly.
- TerminalProofs.RunKeeps: ping timers, read limits, byte counters, origin checks and audit rows are not modelled; CreateTicket may happen in any state, which allows more runs than the handler's checks do.
- TerminalRows.SessionPossibleExactly: the retention job, which deletes the row after some days, the deletion of the server and a restart of the backend, after which the hub is empty but the row is still there, are no events.
- TerminalTheorems.MessageEndsNamedSession: for an agent that names sessions it was told of, which TerminalLink.NextReplyKnown proves of the repository's own agent.
- TerminalStore.HubStore.UnregisterAgent: the object's methods run one at a time, as events of a run; how other goroutines come between the scan and the ends is in the runs, not in the object.
- TerminalLink.RunKeeps: an agent opens its next connection only after it has left the last one, input and resize messages are free events of an open connection, and a lost reply is one that is never dispatched.
- NetworkReport.RunTcpProbe: real arithmetic instead of floating point; address checks and pacing are one parameter.
- NetworkTheorems.RebuiltAgrees: the gateway pillar, the alert evaluation and summary texts are not compared; stored latencies are taken to be stored exactly.
- NetworkTheorems.RebuiltAgreesExactly: for groups that mix methods only the direction of NetworkTheorems.RebuiltAgrees holds, as NetworkTheorems.MixedGroupHidesFallback shows.
- Rollup.AverageDrifts: numerics are exact; the column's overflow at 99999.99 milliseconds and the digits PostgreSQL keeps in a quotient are not modelled.
- AdminMembership.AlwaysAnAdmin: read-committed visibility and the advisory lock are assumed; password changes, the set-up wizard and the reset command are not modelled.
- Self-host synchronisation and legacy plain-text agent tokens bypass the enrollment protocol and are not modelled.
- CreateTask's check of the deletion state is not atomic with its insert; the model allows the insert in any state.
- FleetTasks.UpdatesSpaced: versions are numbers; how two of them compare and which one is offered is a parameter of the event.
- HTTP, WebSocket framing, JSON, SMTP, the operating system's commands and all cryptography appear only as outcomes.
- The frontend, configuration, rate limits, audit log, migrations, version comparison, website probing and log filtering are left out: they would add only easy members.
