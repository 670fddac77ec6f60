/** The first-generation entry points: the command line of main.py and the
    single-page Streamlit app of app.py. Both drive the legacy browser
    automation (src/automator.py) through main.py's `run_process`, and both
    use the legacy vault client of src/bitwarden.py, which is not part of
    this model: what its item request, `unlock` and `get_status` answer are
    inputs here, and the client it builds from a session key is shown as a
    client holding that key. */
module Legacy {
  import opened Base
  import opened Clock
  import Validator
  import opened Bitwarden
  import opened Driver
  import LegacyAutomator
  import opened Usecase
  import Dashboard
  import JobService

  /** What the world answers during one legacy run: the clock, the portal
      address, the vault's answer to the login-item request (the item or
      the error it raised), and how the browser's calls end. */
  datatype LegacyWorld = LegacyWorld(
    now: TimeOfDay, url: string, fetched: Result<Json>,
    setup: Step, login: LegacyAutomator.LoginDriver, punch: LegacyAutomator.PunchDriver)

  /** A legacy run: its events and what `run_process` returned or raised. */
  datatype Ran = Ran(events: seq<Event>, result: Result<bool>)

  /** The `if clock_type == "in" … elif "out"` dispatch after the legacy
      login; any other type does nothing more. */
  function LegacyDispatch(clockType: string, dryRun: bool, d: LegacyAutomator.PunchDriver): (r: Run)
    ensures dryRun ==> NoPunchPress(r.trace)
    ensures PressesFitType(clockType, r.trace)
  {
    if clockType == "in" then LegacyAutomator.ClockIn(true, dryRun, d)
    else if clockType == "out" then LegacyAutomator.ClockOut(true, dryRun, d)
    else Run([], Ok(()))
  }

  /** `with TouchOnTimeAutomator(headless=False) as bot:` — the legacy path
      always opens a visible browser. */
  function LegacySession(clockType: string, dryRun: bool, w: LegacyWorld, username: Json, password: Json): (r: Run)
  {
    Scoped(false, w.setup,
      Then(LegacyAutomator.Login(true, w.url, username, password, w.login),
           LegacyDispatch(clockType, dryRun, w.punch)))
  }

  /** The legacy browser scope: a visible browser is launched first and,
      once started, quit last. The scope succeeds exactly when the browser
      starts, login succeeds and the dispatch succeeds; a failed login is
      what the scope raises. */
  lemma LegacySessionShape(clockType: string, dryRun: bool, w: LegacyWorld, username: Json, password: Json)
    ensures var r := LegacySession(clockType, dryRun, w, username, password);
      var login := LegacyAutomator.Login(true, w.url, username, password, w.login);
      && |r.trace| > 0 && r.trace[0] == Launch(false)
      && (w.setup.Done? ==> r.trace[|r.trace| - 1] == Quit)
      && (r.outcome.Ok? <==> w.setup.Done? && login.outcome.Ok? && LegacyDispatch(clockType, dryRun, w.punch).outcome.Ok?)
      && (w.setup.Done? && login.outcome.Err? ==> r.outcome == login.outcome)
  {
  }

  /** The events before the browser: the dry-run flag is set first, then the
      time-window advice, then the vault client is built from the caller's
      key. There is no credential cache on this path. */
  function LegacyHead(clockType: string, dryRun: bool, sessionKey: Option<string>, now: TimeOfDay): (es: seq<Event>)
    ensures |es| == 3 && es[0] == DryRunSet(dryRun)
    ensures forall i :: 0 <= i < |es| ==> Phase(es[i]) <= 2
    ensures PhasesInOrder(es)
  {
    [DryRunSet(dryRun), Advised(Validator.ValidateTime(clockType, now)), ClientBuilt(Client(sessionKey))]
  }

  /** main.py's `run_process(clock_type, is_dry_run, session_key)`: the item
      is fetched straight from the vault, both fields are read, and the
      browser block runs; True on success, otherwise the first error is
      re-raised unchanged. */
  function RunProcess(clockType: string, dryRun: bool, sessionKey: Option<string>, w: LegacyWorld): (r: Ran)
    ensures |r.events| >= 3 && r.events[..3] == LegacyHead(clockType, dryRun, sessionKey, w.now)
    ensures r.events[2] == ClientBuilt(Client(sessionKey))
    ensures PhasesInOrder(r.events)
    ensures r.result != Ok(false)
    ensures LoginFields(w.fetched).Err? ==>
      r == Ran(LegacyHead(clockType, dryRun, sessionKey, w.now), Err(LoginFields(w.fetched).error))
    ensures LoginFields(w.fetched).Ok? ==>
      var run := LegacySession(clockType, dryRun, w, LoginFields(w.fetched).value.0, LoginFields(w.fetched).value.1);
      && |r.events| == 3 + |run.trace|
      && (forall i :: 0 <= i < |run.trace| ==> r.events[3 + i] == Browser(run.trace[i]))
      && (r.result.Ok? <==> run.outcome.Ok?)
      && (r.result.Err? ==> r.result.error == run.outcome.error)
  {
    var head := LegacyHead(clockType, dryRun, sessionKey, w.now);
    match LoginFields(w.fetched)
    case Err(e) => Ran(head, Err(e))
    case Ok(pair) => Conclude(head, LegacySession(clockType, dryRun, w, pair.0, pair.1))
  }

  /** The browser block's actions follow the head, and its outcome becomes
      True or the error it raised. */
  function Conclude(head: seq<Event>, run: Run): (r: Ran)
    requires |head| == 3 && PhasesInOrder(head)
    requires forall i :: 0 <= i < |head| ==> Phase(head[i]) <= 2
    ensures |r.events| == 3 + |run.trace| && r.events[..3] == head
    ensures forall i :: 0 <= i < |run.trace| ==> r.events[3 + i] == Browser(run.trace[i])
    ensures PhasesInOrder(r.events)
    ensures r.result != Ok(false)
    ensures r.result.Ok? <==> run.outcome.Ok?
    ensures r.result.Err? ==> r.result.error == run.outcome.error
  {
    var tail := BrowserEvents(run.trace);
    InOrderAppend(head, tail);
    assert (head + tail)[..3] == head;
    Ran(head + tail, if run.outcome.Ok? then Ok(true) else Err(run.outcome.error))
  }

  /** A legacy dry run presses no punch button, whatever the browser does. */
  lemma LegacyDryRunNeverPunches(clockType: string, sessionKey: Option<string>, w: LegacyWorld)
    ensures !PunchPressed(RunProcess(clockType, true, sessionKey, w).events)
  {
    if LoginFields(w.fetched).Ok? {
      var pair := LoginFields(w.fetched).value;
      LegacySessionNoPunch(clockType, w, pair.0, pair.1);
    }
  }

  /** Within the legacy browser scope of a dry run, no punch button is
      pressed. */
  lemma LegacySessionNoPunch(clockType: string, w: LegacyWorld, username: Json, password: Json)
    ensures NoPunchPress(LegacySession(clockType, true, w, username, password).trace)
  {
    var login := LegacyAutomator.Login(true, w.url, username, password, w.login);
    var punch := LegacyDispatch(clockType, true, w.punch);
    LegacyAutomator.LoginNeverPunches(true, w.url, username, password, w.login);
    NoPunchPressAppend(login.trace, punch.trace);
    NoPunchPressAppend([Launch(false)], Then(login, punch).trace);
    NoPunchPressAppend([Launch(false)] + Then(login, punch).trace, [Quit]);
  }

  /** Every punch press of a legacy run targets the requested type's button;
      a type other than "in" or "out" presses nothing. */
  lemma LegacyPressesOnlyRequestedButton(clockType: string, dryRun: bool, sessionKey: Option<string>, w: LegacyWorld)
    ensures var es := RunProcess(clockType, dryRun, sessionKey, w).events;
      forall i :: 0 <= i < |es| && es[i].Browser? ==> PressFitsType(clockType, es[i].action)
  {
    if LoginFields(w.fetched).Ok? {
      var pair := LoginFields(w.fetched).value;
      LegacySessionFits(clockType, dryRun, w, pair.0, pair.1);
    }
  }

  /** Within the legacy browser scope, only the requested button is
      pressed. */
  lemma LegacySessionFits(clockType: string, dryRun: bool, w: LegacyWorld, username: Json, password: Json)
    ensures PressesFitType(clockType, LegacySession(clockType, dryRun, w, username, password).trace)
  {
    var login := LegacyAutomator.Login(true, w.url, username, password, w.login);
    var punch := LegacyDispatch(clockType, dryRun, w.punch);
    LegacyAutomator.LoginNeverPunches(true, w.url, username, password, w.login);
    assert PressesFitType(clockType, login.trace);
    PressesFitAppend(clockType, login.trace, punch.trace);
    var body := Then(login, punch);
    assert PressesFitType(clockType, body.trace);
    PressesFitAppend(clockType, [Launch(false)], body.trace);
    PressesFitAppend(clockType, [Launch(false)] + body.trace, [Quit]);
  }

  /** Whenever a legacy run reaches the browser, its first browser event is
      a visible (non-headless) launch; a run whose item lacks a field never
      opens one. */
  lemma LegacyBrowserIsVisible(clockType: string, dryRun: bool, sessionKey: Option<string>, w: LegacyWorld)
    ensures var es := RunProcess(clockType, dryRun, sessionKey, w).events;
      && (LoginFields(w.fetched).Ok? ==> |es| > 3 && es[3] == Browser(Launch(false)))
      && (LoginFields(w.fetched).Err? ==> forall i :: 0 <= i < |es| ==> !es[i].Browser?)
  {
  }

  /** How a legacy run ends: the item's missing field, the browser that did
      not start, the failed login or the failed punch, in that order; a
      type other than "in" or "out" only logs in and returns True. */
  lemma LegacyReturnsTrueOrReraises(clockType: string, dryRun: bool, sessionKey: Option<string>, w: LegacyWorld)
    ensures var fields := LoginFields(w.fetched);
      var r := RunProcess(clockType, dryRun, sessionKey, w);
      && (fields.Err? ==> r.result == Err(fields.error))
      && (fields.Ok? ==>
            var login := LegacyAutomator.Login(true, w.url, fields.value.0, fields.value.1, w.login);
            var punch := LegacyDispatch(clockType, dryRun, w.punch);
            && (w.setup.Raised? ==> r.result == Err(w.setup.e))
            && (w.setup.Done? && login.outcome.Err? ==> r.result == Err(login.outcome.error))
            && (w.setup.Done? && login.outcome.Ok? ==>
                  r.result == (if punch.outcome.Ok? then Ok(true) else Err(punch.outcome.error)))
            && (clockType != "in" && clockType != "out" && w.setup.Done? && login.outcome.Ok? ==>
                  r.result == Ok(true)))
  {
  }

  /** The process's end: the events of the run and the exit status. */
  datatype Exit = Exit(events: seq<Event>, code: int)

  /** main.py's `main()` once the arguments are parsed (the parser admits only
      "in" and "out" as the type): a dry run unless `--live` was given, no
      session key, exit status 1 when `run_process` raises and 0 otherwise. */
  function Main(live: bool, clockType: string, w: LegacyWorld): (r: Exit)
    requires clockType == "in" || clockType == "out"
    ensures r.events == RunProcess(clockType, !live, None, w).events
    ensures r.events[0] == DryRunSet(!live)
    ensures r.code == 0 || r.code == 1
    ensures r.code == 1 <==> RunProcess(clockType, !live, None, w).result.Err?
  {
    var ran := RunProcess(clockType, !live, None, w);
    Exit(ran.events, if ran.result.Err? then 1 else 0)
  }

  /** Without `--live`, the command line never presses a punch button. */
  lemma CliIsDryByDefault(clockType: string, w: LegacyWorld)
    requires clockType == "in" || clockType == "out"
    ensures Main(false, clockType, w).events[0] == DryRunSet(true)
    ensures !PunchPressed(Main(false, clockType, w).events)
  {
    LegacyDryRunNeverPunches(clockType, None, w);
  }

  /** A scheduled legacy job: whether it tried to refresh the session, the
      key it ran with, and the run. It never raises. */
  datatype LegacyJob = LegacyJob(refreshed: bool, keyUsed: Option<string>, run: Ran)

  /** app.py's `job_function(clock_type, is_dry_run, session_key,
      master_password)`. With a non-empty master password it unlocks through
      a fresh client (`unlocked` is the key returned or the error raised) and
      switches to the new key only when that key is non-empty; an unlock
      error is dropped and the old key is kept. A failing run is dropped too. */
  function JobFunction(clockType: string, dryRun: bool, sessionKey: Option<string>,
                       masterPassword: Option<string>, unlocked: Result<string>, w: LegacyWorld): (r: LegacyJob)
    ensures r.refreshed <==> TruthyText(masterPassword)
    ensures TruthyText(masterPassword) && unlocked.Ok? && unlocked.value != "" ==>
      r.keyUsed == Some(unlocked.value)
    ensures !(TruthyText(masterPassword) && unlocked.Ok? && unlocked.value != "") ==> r.keyUsed == sessionKey
    ensures r.run == RunProcess(clockType, dryRun, r.keyUsed, w)
  {
    var key :=
      if TruthyText(masterPassword) && unlocked.Ok? && unlocked.value != "" then Some(unlocked.value)
      else sessionKey;
    LegacyJob(TruthyText(masterPassword), key, RunProcess(clockType, dryRun, key, w))
  }

  /** Unlike the dashboards' runner, which stops a job whose unlock fails or
      returns an empty key, the legacy job goes on with the key it was given. */
  lemma LegacyJobKeepsOldKey(clockType: string, dryRun: bool, headless: bool, sessionKey: Option<string>,
                             masterPassword: string, unlocked: Result<string>, synced: Result<SyncLog>,
                             w: LegacyWorld, world: World)
    requires masterPassword != ""
    requires unlocked.Err? || unlocked == Ok("")
    ensures var job := JobFunction(clockType, dryRun, sessionKey, Some(masterPassword), unlocked, w);
      job.refreshed && job.keyUsed == sessionKey && job.run.events[2] == ClientBuilt(Client(sessionKey))
    ensures JobService.RobustJobRunner(clockType, dryRun, headless, unlocked, synced, world).steps == [JobService.Unlocking]
  {
  }

  /** What app.py's sidebar keeps between reruns: the session key and the
      master password, both absent at first. */
  datatype Sidebar = Sidebar(session: Option<string>, masterPassword: Option<string>)

  /** A press of the sidebar's button: "Unlock Vault" with the typed password
      and what unlocking with it answered, or "Lock Vault". */
  datatype Press = UnlockPressed(input: string, unlocked: Result<string>) | LockPressed

  /** The sidebar. Only the button matching the vault status is shown: unlock
      while the status is anything but "unlocked", lock otherwise. An unlock
      with a non-empty password that returns a non-empty key stores both; any
      other unlock changes nothing (its error is only shown). Lock clears
      both. */
  function SidebarPress(status: string, s: Sidebar, p: Press): (r: Sidebar)
    ensures r != s ==>
      || (status != "unlocked" && p.UnlockPressed? && p.input != "" && p.unlocked.Ok? && p.unlocked.value != ""
          && r == Sidebar(Some(p.unlocked.value), Some(p.input)))
      || (status == "unlocked" && p.LockPressed? && r == Sidebar(None, None))
    ensures status != "unlocked" && p.UnlockPressed? && p.input != "" && p.unlocked.Ok? && p.unlocked.value != "" ==>
      r == Sidebar(Some(p.unlocked.value), Some(p.input))
    ensures status == "unlocked" && p.LockPressed? ==> r == Sidebar(None, None)
  {
    if status != "unlocked" then
      match p
      case LockPressed => s
      case UnlockPressed(input, unlocked) =>
        if input == "" then s
        else match unlocked
          case Err(_) => s
          case Ok(key) => if key != "" then Sidebar(Some(key), Some(input)) else s
    else
      match p
      case LockPressed => Sidebar(None, None)
      case UnlockPressed(_, _) => s
  }

  /** The console (immediate run and scheduling) is shown only while the vault
      reports "unlocked"; the page stops before it otherwise. */
  predicate ConsoleShown(status: string) {
    status == "unlocked"
  }

  /** The console is shown exactly when the sidebar offers "Lock Vault": a
      lock press then clears a stored session, and an unlock press is not on
      offer. */
  lemma ConsoleBesideLock(status: string, s: Sidebar, input: string, unlocked: Result<string>)
    requires s != Sidebar(None, None)
    ensures ConsoleShown(status) <==> SidebarPress(status, s, LockPressed) != s
    ensures ConsoleShown(status) ==> SidebarPress(status, s, UnlockPressed(input, unlocked)) == s
  {
  }

  /** A job scheduled after a sidebar unlock carries its password, so it
      always tries a refresh, and falls back to the sidebar's key when the
      refresh fails or returns nothing. */
  lemma ScheduledJobFallsBackToSidebarKey(status: string, input: string, key: string, clockType: string, dryRun: bool,
                                          unlocked: Result<string>, w: LegacyWorld)
    requires status != "unlocked" && input != "" && key != ""
    requires unlocked.Err? || unlocked == Ok("")
    ensures var s := SidebarPress(status, Sidebar(None, None), UnlockPressed(input, Ok(key)));
      var job := JobFunction(clockType, dryRun, s.session, s.masterPassword, unlocked, w);
      job.refreshed && job.keyUsed == Some(key)
  {
  }

  /** The "run now" button: the sidebar's key as it stands, with no refresh;
      an error is shown, not raised. */
  function RunNow(clockType: string, dryRun: bool, s: Sidebar, w: LegacyWorld): (r: Ran)
    ensures |r.events| >= 3 && r.events[2] == ClientBuilt(Client(s.session))
    ensures r.events[0] == DryRunSet(dryRun)
  {
    RunProcess(clockType, dryRun, s.session, w)
  }

  /** The labels `status_map` puts on the five statuses it knows. */
  const StatusLabels: map<string, string> := map[
    "unlocked" := "✅ Unlocked",
    "locked" := "🔒 Locked",
    "unauthenticated" := "❌ Unauthenticated",
    "unknown" := "❓ Unknown",
    "error" := "⚠️ Error"]

  /** `status_map.get(status, status)`: a known status is shown with its
      label, which always differs from the status itself; any other status
      is shown as it is. */
  function StatusLabel(status: string): (shown: string)
    ensures shown != status <==> status in StatusLabels
    ensures status in StatusLabels ==> shown == StatusLabels[status]
  {
    KnownStatuses();
    if status in StatusLabels then StatusLabels[status] else status
  }

  /** A status is shown decorated exactly when it is one of the five known
      ones. Two distinct known statuses, or two distinct unknown ones, are
      never shown alike; a known and an unknown one can be. */
  lemma StatusLabelShowsRawOnlyUnknown(status: string, other: string)
    ensures StatusLabel(status) != status <==> status in StatusLabels
    ensures status != other && (status in StatusLabels <==> other in StatusLabels) ==>
      StatusLabel(status) != StatusLabel(other)
    ensures status in StatusLabels && other == StatusLabels[status] ==>
      other != status && StatusLabel(other) == StatusLabel(status)
  {
    if status in StatusLabels && other == StatusLabels[status] {
      KnownStatus(status);
      LabelsAreNoStatus(other);
    }
    if status != other && status in StatusLabels && other in StatusLabels {
      KnownStatus(status);
      KnownStatus(other);
    }
  }

  /** No label is itself a known status. */
  lemma LabelsAreNoStatus(shown: string)
    requires shown in StatusLabels.Values
    ensures shown !in StatusLabels
  {
    assert StatusLabels.Keys == {"unlocked", "locked", "unauthenticated", "unknown", "error"};
    assert StatusLabels.Values == {"✅ Unlocked", "🔒 Locked", "❌ Unauthenticated", "❓ Unknown", "⚠️ Error"};
  }

  /** The five statuses `status_map` knows, each labelled with more than
      its own name. */
  lemma KnownStatuses()
    ensures forall k :: k in StatusLabels ==> StatusLabels[k] != k
  {
    assert StatusLabels.Keys == {"unlocked", "locked", "unauthenticated", "unknown", "error"};
  }

  /** The five statuses `status_map` knows. */
  lemma KnownStatus(k: string)
    requires k in StatusLabels
    ensures k == "unlocked" || k == "locked" || k == "unauthenticated" || k == "unknown" || k == "error"
  {
    assert StatusLabels.Keys == {"unlocked", "locked", "unauthenticated", "unknown", "error"};
  }

  /** The mode radio of app.py: a dry run only for the exact test label.
      It is stricter than the later dashboards' substring test: whatever it
      takes for a dry run, they do too. */
  function IsDry(mode: string): (dry: bool)
    ensures dry <==> mode == "テスト (Dry Run)"
    ensures dry ==> Dashboard.DryFromMode(mode)
  {
    Dashboard.ModeLabels();
    mode == "テスト (Dry Run)"
  }

  /** On the two labels on offer, app.py's exact comparison and the later
      dashboards' substring test agree. */
  lemma DryLabelsAgree()
    ensures IsDry("テスト (Dry Run)") == Dashboard.DryFromMode("テスト (Dry Run)")
    ensures IsDry("本番 (Live)") == Dashboard.DryFromMode("本番 (Live)")
  {
    Dashboard.ModeLabels();
  }

  /** app.py's "add to schedule" button: a run time strictly before now is
      refused; any other is added under the dashboards' job id. */
  function Schedule(code: string, runAt: DateTime, now: DateTime): (r: Dashboard.Scheduled)
    ensures r.Added? <==> Rank(now) <= Rank(runAt)
    ensures r.Added? ==> r == Dashboard.Added(Dashboard.JobId(code, runAt), runAt)
  {
    BeforeIsRankOrder(runAt, now);
    if Before(runAt, now) then Dashboard.Rejected else Dashboard.Added(Dashboard.JobId(code, runAt), runAt)
  }

  /** The two schedule checks differ only at the current instant, which app.py
      accepts and the later dashboards refuse. */
  lemma ScheduleAcceptsNow(code: string, runAt: DateTime, now: DateTime)
    ensures Schedule(code, now, now).Added? && Dashboard.Schedule(code, now, now).Rejected?
    ensures runAt != now ==> Schedule(code, runAt, now) == Dashboard.Schedule(code, runAt, now)
  {
    BeforeIsRankOrder(runAt, now);
  }
}
