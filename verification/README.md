# Touch On Time auto clock-in — a Dafny model

This project models the core of a tool that punches in and out on the
Touch On Time web portal. The tool reads the login from a Bitwarden vault
through the `bw` command line. It keeps a local credential cache, drives a
browser through login and the punch button, and runs jobs now or on a
schedule from a Streamlit dashboard. A log file records every job, and the
dashboards read it back as a history table.

The model is pure: every effect the tool depends on is an input.
- Vault processes are `ProcOutcome` values: they could not start, or they
  exited with a code, stdout and stderr.
- JSON decoding is a `Parser` function.
- Each browser call is a `Step`: done, or raised an error.
- The clock and `strptime` are parameters.

What the tool does is an output: a trace of browser `Action`s, a sequence of
`Event`s for a whole run, the cache afterwards, log lines and table rows.

Modules, in dependency order:
- `Base` — Python's truthiness, `dict.get`, indexing, and the exceptions the
  code raises.
- `Text` — `strip`, `in`, `split` and `replace` on strings.
- `Clock` — `datetime` comparison and `strftime`.
- `Validator` — the advisory time windows (`src/validator.py`).
- `Bitwarden` — the vault wrapper (`src/core/bitwarden.py`).
- `Credentials` — the cache-then-vault resolver (`src/core/credentials.py`).
- `Driver` — browser actions and the `with` block that quits the browser.
- `Automator` — the current automation (`src/core/automator.py`).
- `LegacyAutomator` — the older automation (`src/automator.py`).
- `Usecase` — `run_process` (`src/core/usecase.py`).
- `JobService` — `run_job` and the dashboards' `robust_job_runner`.
- `Dashboard` — "run now", the password gate and scheduling in
  `src/interfaces/web/app.py` and `src/web_ui.py`.
- `History` — the paired aggregator and the flat parser of the log views.
- `Logbook` — the log file's line format, and the proof that a runner's
  journal reads back as the intended history rows, with the run's own log
  lines between its start and end.
- `Legacy` — `main.py` and `app.py`.

The central safety property is that a dry run never presses a punch button.
It is proved for the browser routines, for `run_process`, for the service's
jobs and for the legacy command line.

## Model

| member | source | states |
|---|---|---|
| Validator.ValidateTime | src/validator.py:10-48 | "in" warns exactly outside 08:45–09:00, "out" exactly outside 18:00–20:00, both ends included; a warning shows the time and window as `%H:%M`; any other type gives only an unknown-type warning |
| Validator.WindowEndsInside | src/validator.py:22-39 | the four window ends draw no warning |
| Validator.FullPrecision | src/validator.py:18-34 | one second or one microsecond past 09:00 is outside, and the warning still shows "09:00" |
| Validator.WindowsDisjoint | src/validator.py:20-27 | no time of day is inside both windows |
| Clock.BeforeIsRankOrder | src/interfaces/web/app.py:367 | `datetime` comparison is a strict total order on a single time line |
| Clock.StampInjective | src/interfaces/web/app.py:370 | two date-times with the same `%Y%m%d%H%M%S` stamp differ at most in microseconds |
| Bitwarden.ChildEnv | src/core/bitwarden.py:92-95 | a child process sees the parent's environment, plus `BW_SESSION` only when the client's key is non-empty |
| Bitwarden.WarnsNoSession | src/core/bitwarden.py:23-27 | the constructor warns exactly when the children run with the client's environment will see no `BW_SESSION` |
| Bitwarden.StatusCall | src/core/bitwarden.py:34-46 | the status child carries a session key unless the constructor warned, and the client's own key when it holds one |
| Bitwarden.UnlockCall | src/core/bitwarden.py:61-66 | the master password is the last argument, and the child gets the environment of a client without a key |
| Bitwarden.GetItemCall | src/core/bitwarden.py:88-103 | the item name is the last argument, and the environment is the status call's |
| Bitwarden.SyncCall | src/core/bitwarden.py:140-149 | `bw sync` runs with the status call's environment |
| Bitwarden.GetStatus | src/core/bitwarden.py:29-51 | "error" exactly on a failed or non-zero process, undecodable output, a non-object or a status field that is "error"; otherwise the status field, or "unknown" when it is missing |
| Bitwarden.Unlock | src/core/bitwarden.py:53-72 | on exit 0 the stripped stdout becomes the key and the client holds it; a non-zero exit raises RuntimeError quoting stderr; a launch failure propagates; a failure leaves the client unchanged |
| Bitwarden.ExtractLogin | src/core/bitwarden.py:106-120 | succeeds exactly when `login.username` and `login.password` are both truthy, giving a record of the two; otherwise ValueError, or AttributeError on a non-dict |
| Bitwarden.GetLoginItem | src/core/bitwarden.py:74-131 | a non-zero exit raises RuntimeError with the stripped stderr; undecodable output raises the parse RuntimeError; success only from exit 0 with decodable output |
| Bitwarden.FetchedRecordIsComplete | src/core/bitwarden.py:109-120 | a fetched record has exactly the keys username and password, both truthy |
| Bitwarden.Sync | src/core/bitwarden.py:133-154 | a non-zero exit is logged and returns normally; only a process that cannot start raises |
| JobService.SyncExitNeverStopsJob | src/core/services/job_service.py:50-60 | whatever exit code the sync returns, the job runs with the fresh key; only a sync that cannot start stops the job, with its error |
| Credentials.Load | src/core/credentials.py:73-88 | a hit exactly when the file decodes to an object holding a non-null value under the key; every failure reads as a miss |
| Credentials.IsCached | src/core/credentials.py:25-32 | cached exactly when the file decodes to an object holding a non-null value under the key, however falsy |
| Credentials.Save | src/core/credentials.py:91-117 | logged success exactly when the write and chmod succeed and the file is not a non-object JSON; a write that fails before the file is opened leaves the cache as it was; one that fails after opening leaves an undecodable file |
| Credentials.SaveThenLoad | src/core/credentials.py:91-117 | after a save that was written, the key reads back as the saved record; after one that broke off once the file was opened, it misses; otherwise it reads as before |
| Credentials.SavePreservesOthers | src/core/credentials.py:93-106 | a save never changes any other key's lookup, unless the write broke off after opening the file: then every key misses |
| Credentials.TruncatedSaveMissesNext | src/core/credentials.py:91-117 | a fetch whose save breaks off after opening the file still returns the record, but the next lookup of any item goes to the vault |
| Credentials.SaveOverUnreadable | src/core/credentials.py:94-102 | an undecodable file is replaced by one holding only the new entry |
| Credentials.GetCredentials | src/core/credentials.py:34-71 | a truthy cached value is returned with no vault call; otherwise one client is built, by the factory if given, the item is fetched once, and a fetched record is saved |
| Credentials.VaultOnlyOnMiss | src/core/credentials.py:50-66 | the vault is called exactly when the cached value is missing or falsy |
| Credentials.EmptyEntryCachedButMissed | src/core/credentials.py:25-52 | an entry stored as `{}` counts as cached for `is_cached`, yet resolution still goes to the vault |
| Credentials.MissThenHit | src/core/credentials.py:50-71 | a miss whose fetch and write succeed makes the next lookup a hit with the same record and no vault call |
| Credentials.ClearCache | src/core/credentials.py:115-122 | an existing file is removed when removal succeeds; otherwise nothing changes |
| Credentials.ClearedMissesEverything | src/core/credentials.py:115-122 | after a clear that went through, every lookup misses, and clearing again changes nothing |
| Driver.Scoped | src/core/automator.py:29-63 | the browser is launched with the requested headless flag; when it starts, the body runs and the browser is quit after it, with the body's outcome; a failed start propagates |
| Driver.ScopedAlwaysQuits | src/core/automator.py:33-63 | a started browser is quit exactly once, as the last action, whether the body succeeded or raised |
| Automator.LoginBody | src/core/automator.py:76-108 | the login steps run in order and stop at the first failure; whatever happens, the actions are a prefix of filling id, filling password and clicking OK |
| Automator.Login | src/core/automator.py:65-122 | no driver raises RuntimeError; success needs every step including the punch-button marker; after the page loads, a failure leaves a timeout or generic screenshot and, if that worked, an attempt at the page source; the failure is re-raised unchanged when both diagnostics succeed, and otherwise the first failing diagnostic's error is raised instead |
| Automator.Punch | src/core/automator.py:136-211 | a dry run returns once the button is clickable and presses nothing; a live run whose button is found starts by clicking it; an intercepted click falls back to one script click; a failure ends with the `not_found` or `generic` screenshot, and a screenshot that raises replaces the error; only `.record-{type}` is pressed |
| Automator.PunchIgnoresOverlay | src/core/automator.py:155-165 | however the overlay wait ends, the punch run is the same |
| Automator.PunchIgnoresAlert | src/core/automator.py:194-200 | however the alert check ends, the punch outcome is the same |
| Automator.LoginNeverPunches | src/core/automator.py:65-122 | logging in presses no punch button on any path |
| Automator.ClockIn | src/core/automator.py:124-128 | presses only `.record-clock-in`, and nothing in a dry run |
| Automator.ClockOut | src/core/automator.py:130-134 | presses only `.record-clock-out`, and nothing in a dry run |
| LegacyAutomator.LoginBody | src/automator.py:76-100 | the legacy login steps stop at the first failure; success needs no wait for the main screen |
| LegacyAutomator.Login | src/automator.py:65-116 | as the current login, but it succeeds as soon as OK is clicked, and its diagnostics go to the working directory; a failing diagnostic's error replaces the login error |
| LegacyAutomator.LoginNeverPunches | src/automator.py:65-116 | the legacy login presses no punch button on any path |
| LegacyAutomator.Punch | src/automator.py:130-175 | a dry run returns after the button is clickable; a live run whose button is found starts by clicking it; a live click that raises is not retried and ends with the screenshot, whose own error, if any, replaces the click's; there is never a script click or an alert |
| LegacyAutomator.ClockIn | src/automator.py:118-122 | presses only `.record-clock-in`, and nothing in a dry run |
| LegacyAutomator.ClockOut | src/automator.py:124-128 | presses only `.record-clock-out`, and nothing in a dry run |
| Usecase.VaultEvents | src/core/usecase.py:39-44 | the factory's client carries the caller's session key, and the item request runs in the environment of the client built just before it |
| Usecase.Head | src/core/usecase.py:25-44 | the flag is set, then the advice is given, then the vault is called, in that stage order |
| Usecase.Finish | src/core/usecase.py:49-65 | browser events follow the earlier stages; True exactly when the browser block succeeded, otherwise its error unchanged |
| Usecase.RunProcess | src/core/usecase.py:14-65 | the first events are the dry-run flag and the time advice; stages stay in order; the result is never False; a resolution error or a missing field is re-raised with no browser event |
| Usecase.LoginFields | src/core/usecase.py:46-47 | the fields are read exactly when the credentials are an object holding both keys; a resolution error passes through; a missing key raises KeyError naming the first one missing; a truthy cached value that is no object raises TypeError |
| Usecase.ResolveUsesFactory | src/core/usecase.py:40-44 | a truthy cache hit makes no vault call; otherwise the factory's client is asked once for the item, and its answer is the credentials |
| Usecase.SessionShape | src/core/usecase.py:50-56 | the browser is launched first with the requested visibility and, once started, quit last; the block succeeds exactly when start, login and dispatch succeed; a failed login is what it raises |
| Usecase.DispatchClicksRequested | src/core/usecase.py:53-56 | a live "in" or "out" whose button is found starts by clicking that button; any other type does nothing |
| Usecase.SessionEvents | src/core/usecase.py:40-56 | a run with both fields consists of the head, then the browser block's actions |
| Usecase.DryRunNeverPunches | src/core/usecase.py:26-56 | a dry run presses no punch button, whatever the cache, vault and browser do |
| Usecase.SessionNoPunch | src/core/usecase.py:50-56 | inside the browser block of a dry run no punch button is pressed |
| Usecase.SessionPressesFit | src/core/usecase.py:50-56 | inside the browser block only the requested type's button is pressed |
| Usecase.PressesOnlyRequestedButton | src/core/usecase.py:53-56 | "in" presses only clock-in, "out" only clock-out, any other type nothing |
| Usecase.HeadlessPassedThrough | src/core/usecase.py:50 | every browser event comes after a launch with the caller's headless flag |
| Usecase.VaultClientIsLazy | src/core/usecase.py:40-44 | a truthy cache hit makes no vault event; a miss builds one client with the caller's key and makes one item request |
| Usecase.ReturnsTrueOrReraises | src/core/usecase.py:33-65 | the first failure decides: missing field, browser start, login, then punch; otherwise True, even for an unknown type |
| JobService.Refresh | src/core/services/job_service.py:50-60 | unlock, reject an empty key, sync with the new key, then run with that key; each failure stops the job at its step |
| JobService.Journal | src/core/services/job_service.py:28-69 | a start line, then exactly one completion or failure line quoting the error |
| JobService.RunJob | src/core/services/job_service.py:18-70 | a cache hit runs without a key; a miss without a master password raises ValueError; otherwise a fresh unlock, sync and run; the log matches the outcome |
| JobService.FreshKeyIsUsed | src/core/services/job_service.py:50-60 | on a miss, `run_process` gets the stripped non-empty unlock output, and the sync ran under it |
| JobService.CacheHitSkipsUnlock | src/core/services/job_service.py:40-43 | a cached item runs once with no key, and with no unlock or sync |
| JobService.EmptyEntryRunsKeyless | src/core/services/job_service.py:40-43 | an entry stored empty makes the job run keyless, and the run then asks the vault with a keyless client |
| JobService.JobDryRunNeverPunches | src/core/services/job_service.py:18-60 | a dry-run service job presses no punch button |
| JobService.RobustJobRunner | src/interfaces/web/app.py:49-80 | the dashboard runner always unlocks afresh, then behaves like the service's refresh, logs the outcome and never raises |
| JobService.RunnerLogsLikeService | src/interfaces/web/app.py:49-80 | on a cache miss the runner and the service take the same steps and log the same lines |
| Dashboard.RunNow | src/interfaces/web/app.py:347-363 | "run now" unlocks and syncs, then runs with the key as returned, even an empty one; an error stops it at its step |
| Dashboard.RunNowKeepsEmptyKey | src/interfaces/web/app.py:353-358 | an empty key reaches the run and injects no session, where the scheduled runner would stop |
| Dashboard.AuthenticateWebUi | src/web_ui.py:134-156 | the password is stored in both places exactly when it is non-empty and its unlock returned a non-empty key |
| Dashboard.AuthenticateWebApp | src/interfaces/web/app.py:116-136 | the process-wide copy is set exactly on a non-empty password whose unlock returned a key |
| Dashboard.Logout | src/interfaces/web/app.py:171-173 | after logout neither dashboard shows its console |
| Dashboard.ConsoleShownWebUi | src/web_ui.py:159 | the console shows exactly when the page copy is truthy |
| Dashboard.ConsoleShownWebApp | src/interfaces/web/app.py:177 | the console shows exactly when src/web_ui.py's gate would and the process-wide copy is truthy too |
| Dashboard.ConsoleNeedsUnlock | src/interfaces/web/app.py:139-177 | from a logged-out page, the console appears exactly after an unlock that returned a key |
| Dashboard.TypeCode | src/interfaces/web/app.py:302-303 | any type label maps to "in" or "out" |
| Dashboard.TypeLabels | src/web_ui.py:239-240 | the two labels on offer map to "in" and "out" |
| Dashboard.DryFromMode | src/interfaces/web/app.py:305-306 | dry exactly when the label contains "Dry" |
| Dashboard.ModeLabels | src/web_ui.py:242-243 | the test label is a dry run and the live label is not |
| Dashboard.DefaultTime | src/interfaces/web/app.py:327-330 | the presets fall on whole minutes |
| Dashboard.DefaultsInsideWindows | src/web_ui.py:255-258 | 08:55 is inside the clock-in window and 18:05 inside the clock-out window |
| Dashboard.JobId | src/interfaces/web/app.py:370 | the id is the type code, an underscore and the 14-digit stamp |
| Dashboard.JobIdInjective | src/web_ui.py:296 | two job ids coincide only for the same type at the same second |
| Dashboard.Schedule | src/interfaces/web/app.py:366-380 | a job is added exactly when its time is strictly after now |
| History.StartedDesc | src/interfaces/web/app.py:230-231 | the description exists exactly when the line holds "Job Started:"; otherwise IndexError |
| History.TextAfter | src/interfaces/web/app.py:261-262 | without the marker the fallback text is used; with it, the stripped text between the first marker and the next one, or the end of the line |
| History.TextAfterOnly | src/interfaces/web/app.py:261-262 | with a single marker, the text is everything after it, stripped |
| History.Feed | src/interfaces/web/app.py:215-266 | a line adds one row to the table exactly when it opens a job; pushed rows are kept; it raises, with IndexError, exactly on a start line without the colon |
| History.UnstampedLineSkipped | src/interfaces/web/app.py:216-222 | a line whose timestamp does not parse changes nothing |
| History.StartPushesPending | src/interfaces/web/app.py:224-250 | a start pushes the open job unchanged, still running, and opens a job with the line's date and time |
| History.OtherLinesIgnored | src/interfaces/web/app.py:252-266 | a completion or failure with no open job, and any other line, changes nothing |
| History.EndClosesPending | src/interfaces/web/app.py:252-264 | an end line closes the open job with its time; completion wins over failure; a failure reads the text after "Job Failed:", or "Error" |
| History.FeedKeepsPendingOpen | src/interfaces/web/app.py:243-266 | an open job always has end "-" and status running |
| History.Fold | src/interfaces/web/app.py:212-270 | the rows number the pushed rows plus one per opening line; it fails exactly when some line is a start without the colon |
| History.FoldSkipsUnlisted | src/interfaces/web/app.py:212-266 | lines without a job marker, in front of others, are skipped without touching the open job |
| History.FoldAround | src/interfaces/web/app.py:212-270 | two lines consumed in turn, with lines without a job marker between them, give the table of the second's state |
| History.Aggregate | src/interfaces/web/app.py:212-274 | one row per stamped start line, newest first; an error exactly on a start line without the colon |
| History.RecordOf | src/web_ui.py:179-207 | a line gets a record exactly when it holds one of the three markers, stamped with the text before "["; a start without the colon raises |
| History.RecordPrecedence | src/web_ui.py:179-207 | a start wins over a completion and a completion over a failure; a failure without the colon reads "Unknown Error" |
| History.Records | src/web_ui.py:177-207 | one record per listed line, in file order; an error exactly when some line raises |
| History.FlatHistory | src/web_ui.py:177-211 | the records, newest first |
| History.FlatSnoc | src/web_ui.py:209-211 | a listed line appended to a file shows on top of the file's earlier records |
| History.RecordsSkipUnlisted | src/web_ui.py:177-207 | lines without a job marker, appended anywhere, add no record |
| History.FlatAround | src/web_ui.py:177-211 | two listed lines appended to a file, with lines without a job marker between them, show on top, the second above the first |
| History.ParseFlat | src/web_ui.py:177-211 | the loop as written computes the flat table |
| History.RecordsErrPersists | src/web_ui.py:178-183 | an error in any prefix stops the whole view with IndexError |
| History.ErrIsIndexError | src/web_ui.py:181-183 | the only error the flat parser raises is IndexError |
| Logbook.AscTime | src/interfaces/web/app.py:23 | `%(asctime)s` is the date-time to the second, a comma and three digits of milliseconds |
| Logbook.LogLineShape | src/interfaces/web/app.py:20-24 | a line holds the timestamp in its first 23 characters, then the level tag, then the message up to the final newline; a message without line breaks makes it one record |
| Logbook.ReadLines | src/interfaces/web/app.py:204-205 | the records join back into the text read, and none is empty |
| Logbook.ReadLinesRecord | src/interfaces/web/app.py:204-205 | a single record at the front of the text is read as one record, followed by the records of the rest |
| Logbook.ReadLinesAppend | src/interfaces/web/app.py:204-205 | a text that ends a line, followed by another, is read as the records of the first and then those of the second |
| Logbook.QuietLine | src/interfaces/web/app.py:20-25 | a line whose prefix holds no 'J' and no break, and whose message holds no break and no job marker, is one record without a job marker |
| Logbook.QuietRunLine | src/core/usecase.py:28-62 | a line the run logs at INFO, WARNING, ERROR or CRITICAL, with a message holding no break and no job marker, is one record without a job marker |
| Logbook.QuietJoin | src/interfaces/web/app.py:20-25 | such text logged one piece after another stays free of job markers, record by record |
| Logbook.TimestampOfLine | src/interfaces/web/app.py:216 | both views find exactly the `asctime` text before the level tag |
| Logbook.SecondsOfTimestamp | src/interfaces/web/app.py:220 | the text before the comma is the instant to the second |
| Logbook.StampReadsBack | src/interfaces/web/app.py:216-222 | with a `strptime` that inverts the format, the aggregator reads back the logging instant, to the second |
| Logbook.StartLineReads | src/interfaces/web/app.py:224-231 | a runner's start line yields the description after the colon |
| Logbook.DescReads | src/interfaces/web/app.py:234-241 | the description reads back as the run's mode and, without its marker, as the clock type |
| Logbook.CompletedLineReads | src/interfaces/web/app.py:252 | the completion line is no start and is a completion |
| Logbook.FailedLineReads | src/interfaces/web/app.py:259-262 | a failure line is neither a start nor a completion, and reads back its error text, stripped |
| Logbook.JournalLines | src/interfaces/web/app.py:54-80 | the records read back from a job's journal join into the text appended, and are its start line, the records of what the run logged in between, and its end line, when neither the clock type nor the error text breaks a line |
| Logbook.FeedStart | src/interfaces/web/app.py:224-250 | the start line opens a running job with its date, time, mode and clock type |
| Logbook.FeedEnd | src/interfaces/web/app.py:252-264 | the end line closes that job with its time and outcome |
| Logbook.JournalAggregates | src/interfaces/web/app.py:212-274 | a job's journal, with the run's own log lines between its start and end, shows as one row: start and end times, mode, clock type, and success or the stripped error text |
| Logbook.StartRecord | src/web_ui.py:179-199 | the flat table's record of a start line |
| Logbook.EndRecord | src/web_ui.py:200-207 | the flat table's record of a completion or failure line |
| Logbook.JournalFlattens | src/web_ui.py:177-211 | a job's journal, with the run's own log lines between its start and end, appended to any readable log adds the end record and then the start record on top of the log's records |
| Legacy.LegacyDispatch | main.py:76-79 | only the requested type's button is pressed, and nothing in a dry run |
| Legacy.LegacySessionShape | main.py:73-79 | a visible browser is launched first and, once started, quit last; the block succeeds exactly when start, login and dispatch succeed; a failed login is what it raises |
| Legacy.LegacyHead | main.py:55-67 | the flag is set, then the advice is given, then the client is built, in stage order |
| Legacy.RunProcess | main.py:44-88 | the client gets the caller's key, with no cache; stages stay in order; never False; missing fields re-raise before any browser |
| Legacy.LegacyDryRunNeverPunches | main.py:55-79 | a legacy dry run presses no punch button |
| Legacy.LegacyPressesOnlyRequestedButton | main.py:76-79 | every press targets the requested type's button |
| Legacy.LegacyBrowserIsVisible | main.py:73 | the browser is always launched non-headless, and never launched when a field is missing |
| Legacy.LegacyReturnsTrueOrReraises | main.py:63-88 | the first failure decides: missing field, browser start, login, then punch; otherwise True |
| Legacy.Main | main.py:90-101 | a dry run unless `--live`; no session key; exit status 1 exactly when the run raises |
| Legacy.CliIsDryByDefault | main.py:94 | without `--live` the command line presses no punch button |
| Legacy.JobFunction | app.py:34-58 | a refresh is tried exactly when a master password is given; its key is used only when non-empty, otherwise the old key; nothing is raised |
| Legacy.LegacyJobKeepsOldKey | app.py:39-52 | a failed or empty refresh falls back to the old key, where the later dashboards' runner stops |
| Legacy.SidebarPress | app.py:93-117 | unlock stores the key and the password exactly on a non-empty password with a non-empty key; lock clears both; only the button for the status is shown |
| Legacy.ConsoleBesideLock | app.py:93-124 | the console is shown exactly when the sidebar offers "Lock Vault", and then no unlock is on offer |
| Legacy.ScheduledJobFallsBackToSidebarKey | app.py:102-105 | a job scheduled after a sidebar unlock tries a refresh and falls back to the sidebar's key |
| Legacy.RunNow | app.py:171-183 | "run now" uses the stored key, with no refresh |
| Legacy.StatusLabel | app.py:84-91 | a status is shown differently from its own text exactly when it is one of the five known ones, and then with its label |
| Legacy.StatusLabelShowsRawOnlyUnknown | app.py:84-91 | a status is decorated exactly when known; two distinct known statuses, or two distinct unknown ones, never look alike; an unknown status spelled like a label looks like the known one |
| Legacy.IsDry | app.py:137-138 | dry exactly for the test label; whatever it calls dry, the later dashboards' substring test calls dry too |
| Legacy.DryLabelsAgree | app.py:137-138 | on the two labels, this agrees with the later dashboards' substring test |
| Legacy.Schedule | app.py:186-190 | a job is added exactly when its time is not before now |
| Legacy.ScheduleAcceptsNow | app.py:187 | the current instant is accepted here and refused by the later dashboards; the two checks agree at every other time |

## Left out

- Processes, files, the browser, the clock and the scheduler are not executed. Their outcomes are inputs: a `ProcOutcome`, a `Cache` with a `WriteOutcome`, a `Step` per driver call, a time value.
- Logging to the console and `print` output are left out. Of the log file, only the format the dashboards configure (`%(asctime)s [%(levelname)s] %(message)s`) is modelled. The service's log format comes from `src/config`, which is not part of this model, so the service's own lines are not read back.
- `src/config`, `src/bitwarden.py` (the legacy vault client) and `src/core/validator.py` are not part of this model.
  - `validator.validate_time` is taken to be the one in `src/validator.py`.
  - The legacy client's item request, unlock and status are inputs.
  - The legacy client is shown as a client holding the key it was given.
  - `src/web_ui.py` builds its runner, password gate and "run now" on that legacy client (src/web_ui.py:7). Its runner's text is the same as the one in `src/interfaces/web/app.py:49-80`. The model gives both dashboards the unlock result and the sync outcome as inputs. `JobService.RunnerLogsLikeService` builds those inputs from the current client, so it speaks of the `src/interfaces/web/app.py` runner only.
- `strptime` is an abstract parser. The round trip assumes one that inverts `%Y-%m-%d %H:%M:%S` (`ReadsBackFormat`).
- `%Y` is rendered as four padded digits. Years below 1000 and the validity of a day within its month are not modelled.
- A failure inside `teardown_driver` is not modelled: the browser is taken to quit cleanly.
- Sleeps, implicit waits and timeouts are left out. Only whether a wait succeeded or timed out matters.
- JSON numbers are integers. Floats are left out.
- APScheduler, background threads, `misfire_grace_time` and concurrent cache writes are concurrency and out of scope.
- Dashboard.Schedule: the scheduler's job store is not modelled. `add_job` is called without `replace_existing` (src/interfaces/web/app.py:371-379, src/web_ui.py:297-305). So adding a job whose id is still pending, with the same type and the same second, raises APScheduler's `ConflictingIdError` from the button handler. The model answers `Added` there.
- Legacy.Schedule: the same gap. `add_job` is called without `replace_existing` (app.py:191-198), so a second job with an id still pending raises `ConflictingIdError`, which is not modelled.
- The Streamlit layout, reruns, the cached status TTL, the jobs list and its "Drop" button are left out. So are the log reset and raw log tabs, the launchers, `src/cli.py`, `src/interfaces/cli/entrypoint.py` and the logger helpers.
- Legacy.Main: argparse's rejection of a type other than "in" or "out" (exit status 2) is not modelled. The type is required to be one of the two choices.
- Legacy.RunNow: the success or error message it shows is not modelled, only the run it starts.
- Logbook.JournalAggregates: covers error texts that hold no line break and no job marker ("Job Started", "Job Completed Successfully", "Job Failed:"), clock types that are lower-case words, and run output between the journal lines that holds no job marker (`Quiet`). The source itself misreads the excluded cases. `readlines()` splits a multi-line error, such as a Selenium message with a stack trace, over several records; the summary row then shows only the first line, and the remaining records carry no timestamp and are skipped. An error text quoting a marker is taken for a start, a completion or a shorter failure. Those cases are not proved.
- Logbook.JournalFlattens: the same restrictions. For a multi-line error, the flat table keeps only the records that carry a job marker.
- Logbook.QuietRunLine: the run's own lines are covered when their message holds no line break and no job marker. A message quoting a browser error with a stack trace, as the login and punch handlers log it, is not. Lines other jobs log concurrently into the same file are concurrency and out of scope.
- Log levels: only the two levels the runners' journal uses (INFO and ERROR) are modelled as values. The run's WARNING and CRITICAL lines are covered by `Logbook.QuietRunLine`, which takes the level name as text.
- The text read back is taken as already in universal-newline form: `ReadLines` splits at `\n` only. A `\r` that text mode would turn into a line end is excluded from the messages the round trip covers (`NoBreak`).
- Dashboard.DefaultTime: the contract states only that the presets fall on whole minutes. Their values are pinned down by `Dashboard.DefaultsInsideWindows` together with `Validator.ValidateTime`.
- Behaviours of the code worth noting:
  - `unlock` passes the master password as a command-line argument, not on stdin (src/core/bitwarden.py:62).
  - Undecodable item output raises RuntimeError, not a credential-not-found error (src/core/bitwarden.py:126-128).
  - `get_status` never raises. It answers "error" (src/core/bitwarden.py:49-51).
  - `is_cached` is false for a key stored as null (src/core/credentials.py:32).
  - `sync` catches only a non-zero exit. A binary that cannot start propagates its error (src/core/bitwarden.py:151).
