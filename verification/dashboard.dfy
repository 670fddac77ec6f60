/** The two Streamlit dashboards (src/interfaces/web/app.py and
    src/web_ui.py) apart from their log views: the immediate run, the
    master-password gate in front of the console, and adding a job to the
    schedule. The widgets' values and the wall clock are inputs. */
module Dashboard {
  import opened Base
  import opened Text
  import opened Clock
  import opened Bitwarden
  import opened Usecase
  import opened JobService
  import Validator

  /** The "run now" button: unlock, sync and run, with no check of the key
      in between. An error ends the attempt and is shown, never raised. */
  function RunNow(clockType: string, dryRun: bool, headless: bool,
                  unlocked: Result<string>, synced: Result<SyncLog>, w: World): (r: JobRun)
    ensures |r.steps| >= 1 && r.steps[0] == Unlocking
    ensures unlocked.Err? ==> r == JobRun([Unlocking], Err(unlocked.error))
    ensures unlocked.Ok? && synced.Err? ==> r == JobRun([Unlocking, Syncing(Client(Some(unlocked.value)))], Err(synced.error))
    ensures (|r.steps| == 3 && r.steps[2].Running?) <==> unlocked.Ok? && synced.Ok?
    ensures forall i :: 0 <= i < |r.steps| && r.steps[i].Running? ==>
      i == 2 && r.steps[i].request == Request(clockType, dryRun, Some(unlocked.value), headless)
  {
    match unlocked
    case Err(e) => JobRun([Unlocking], Err(e))
    case Ok(key) =>
      match synced
      case Err(e) => JobRun([Unlocking, Syncing(Client(Some(key)))], Err(e))
      case Ok(_) => SyncedRun(key, Request(clockType, dryRun, Some(key), headless), w)
  }

  /** Unlike the scheduled runner, "run now" goes on with an empty key: the
      run gets it, and the vault client built from it injects no session. */
  lemma RunNowKeepsEmptyKey(clockType: string, dryRun: bool, headless: bool, synced: Result<SyncLog>, w: World)
    requires synced.Ok?
    ensures var r := RunNow(clockType, dryRun, headless, Ok(""), synced, w);
      |r.steps| == 3 && r.steps[2].request.sessionKey == Some("")
    ensures RobustJobRunner(clockType, dryRun, headless, Ok(""), synced, w).steps == [Unlocking]
    ensures ChildEnv(Client(Some("")), w.ambient) == w.ambient
  {
  }

  /** Where a dashboard keeps the master password: the page session's copy
      (a string, empty when none) and the process-wide copy. */
  datatype Stored = Stored(local: string, global: Option<string>)

  /** src/web_ui.py shows the console when the page session's copy is
      truthy, whatever the process-wide copy holds. */
  function ConsoleShownWebUi(s: Stored): (shown: bool)
    ensures shown <==> TruthyText(Some(s.local))
  {
    s.local != ""
  }

  /** src/interfaces/web/app.py is stricter: it shows the console when
      src/web_ui.py would and the process-wide copy is truthy too. */
  function ConsoleShownWebApp(s: Stored): (shown: bool)
    ensures shown <==> ConsoleShownWebUi(s) && TruthyText(s.global)
  {
    s.local != "" && TruthyText(s.global)
  }

  /** The web_ui.py form submit. An empty input changes nothing; otherwise
      the password is stored in both places exactly when unlocking with it
      returns a non-empty key. The sync that follows cannot undo that: its
      failure is only shown. */
  function AuthenticateWebUi(s: Stored, input: string, unlocked: Result<string>): (r: Stored)
    ensures r == s || r == Stored(input, Some(input))
    ensures r == Stored(input, Some(input)) <==> (input != "" && unlocked.Ok? && unlocked.value != "") || s == Stored(input, Some(input))
  {
    if input == "" then s
    else match unlocked
      case Err(_) => s
      case Ok(key) => if key != "" then Stored(input, Some(input)) else s
  }

  /** The web/app.py `authenticate` callback: the widget already holds the
      input as the page copy; the process-wide copy is set exactly when
      unlocking returns a non-empty key. */
  function AuthenticateWebApp(s: Stored, unlocked: Result<string>): (r: Stored)
    ensures r.local == s.local
    ensures s.local != "" && unlocked.Ok? && unlocked.value != "" ==> r.global == Some(s.local)
    ensures !(s.local != "" && unlocked.Ok? && unlocked.value != "") ==> r == s
  {
    if s.local == "" then s
    else match unlocked
      case Err(_) => s
      case Ok(key) => if key != "" then s.(global := Some(s.local)) else s
  }

  /** Logging out clears both copies. */
  function Logout(s: Stored): (r: Stored)
    ensures !ConsoleShownWebUi(r) && !ConsoleShownWebApp(r)
  {
    Stored("", None)
  }

  /** From a logged-out page, the console appears only through an unlock
      that returned a key, and then holds the password that was typed. */
  lemma ConsoleNeedsUnlock(input: string, unlocked: Result<string>)
    ensures var r := AuthenticateWebUi(Stored("", None), input, unlocked);
      ConsoleShownWebUi(r) <==> input != "" && unlocked.Ok? && unlocked.value != ""
    ensures var r := AuthenticateWebApp(Stored(input, None), unlocked);
      ConsoleShownWebApp(r) <==> input != "" && unlocked.Ok? && unlocked.value != ""
    ensures ConsoleShownWebUi(AuthenticateWebUi(Stored("", None), input, unlocked)) ==>
      AuthenticateWebUi(Stored("", None), input, unlocked).local == input
  {
  }

  /** The radio's type label to its code: any label containing "IN" is a
      clock-in. */
  function TypeCode(choice: string): (code: string)
    ensures code == "in" || code == "out"
  {
    if Contains(choice, "IN") then "in" else "out"
  }

  /** The two labels on offer map to the two codes. */
  lemma TypeLabels()
    ensures TypeCode("出勤 (IN)") == "in"
    ensures TypeCode("退勤 (OUT)") == "out"
  {
    assert OccursAt("出勤 (IN)", "IN", 4);
    NotContainsWithoutHead("退勤 (OUT)", "IN");
  }

  /** The dashboards' mode radio: any label containing "Dry" is a dry run. */
  function DryFromMode(mode: string): (dry: bool)
    ensures dry <==> exists j :: OccursAt(mode, "Dry", j)
  {
    ContainsIff(mode, "Dry");
    Contains(mode, "Dry")
  }

  /** The test label asks for a dry run and the live label does not. */
  lemma ModeLabels()
    ensures DryFromMode("テスト (Dry Run)")
    ensures !DryFromMode("本番 (Live)")
  {
    assert OccursAt("テスト (Dry Run)", "Dry", 5);
    NotContainsWithoutHead("本番 (Live)", "Dry");
  }

  /** The preset time of the time picker: 08:55 for clock-in, 18:05 for
      anything else. */
  function DefaultTime(code: string): (t: TimeOfDay)
    ensures t.second == 0 && t.micro == 0
  {
    if code == "in" then TimeOfDay(8, 55, 0, 0) else TimeOfDay(18, 5, 0, 0)
  }

  /** Each preset lies inside its type's recommended window, so a job left
      at the preset draws no time warning. */
  lemma DefaultsInsideWindows()
    ensures Validator.ValidateTime("in", DefaultTime("in")) == Validator.WithinWindow("in")
    ensures Validator.ValidateTime("out", DefaultTime("out")) == Validator.WithinWindow("out")
  {
  }

  /** What the "add to schedule" button did. */
  datatype Scheduled = Rejected | Added(id: string, runAt: DateTime)

  /** `f"{type_code}_{run_dt.strftime('%Y%m%d%H%M%S')}"` */
  function JobId(code: string, runAt: DateTime): (id: string)
    ensures |id| == |code| + 15
    ensures id[..|code|] == code && id[|code|] == '_' && id[|code| + 1..] == Stamp(runAt)
  {
    code + "_" + Stamp(runAt)
  }

  /** Two ids of clock-in or clock-out jobs coincide only for the same type
      at the same second. */
  lemma JobIdInjective(c1: string, d1: DateTime, c2: string, d2: DateTime)
    requires c1 == "in" || c1 == "out"
    requires c2 == "in" || c2 == "out"
    requires JobId(c1, d1) == JobId(c2, d2)
    ensures c1 == c2 && d1.(micro := 0) == d2.(micro := 0)
  {
    assert |c1| == |c2|;
    assert c1 == JobId(c1, d1)[..|c1|] == JobId(c2, d2)[..|c2|] == c2;
    assert Stamp(d1) == JobId(c1, d1)[|c1| + 1..];
    StampInjective(d1, d2);
  }

  /** The dashboards' schedule check: a run time at or before now is
      refused. */
  function Schedule(code: string, runAt: DateTime, now: DateTime): (r: Scheduled)
    ensures r.Added? <==> Rank(now) < Rank(runAt)
    ensures r.Added? ==> r == Added(JobId(code, runAt), runAt)
  {
    BeforeIsRankOrder(now, runAt);
    if AtOrBefore(runAt, now) then Rejected else Added(JobId(code, runAt), runAt)
  }
}
