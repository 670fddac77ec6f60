/** The job runners: `JobService.run_job` (src/core/services/job_service.py)
    and the dashboards' background `robust_job_runner`. Both log a start
    line, refresh the vault session when they need one, call `run_process`,
    and log how it ended; the service re-raises, the dashboard runner does
    not. */
module JobService {
  import opened Base
  import opened Text
  import opened Bitwarden
  import opened Credentials
  import opened Usecase

  const CompletedMessage := "Job Completed Successfully."
  const EmptyKeyMessage := "Unlock failed (Session key is empty)"
  const NoPasswordMessage := "認証キャッシュがなく、Master Passwordも指定されていません。"

  /** Python's `str(bool)`. */
  function PyBool(b: bool): string {
    if b then "True" else "False"
  }

  /** `f"Job Started: {clock_type} (Dry={is_dry_run})"` */
  function StartMessage(clockType: string, dryRun: bool): string {
    "Job Started: " + clockType + " (Dry=" + PyBool(dryRun) + ")"
  }

  /** `f"Job Failed: {e}"` */
  function FailedMessage(e: Error): string {
    "Job Failed: " + e.Message()
  }

  /** A step of a job, in order: unlocking the vault, syncing it with the
      client as it stands after the unlock, and one call of `run_process`. */
  datatype JobStep = Unlocking | Syncing(client: Client) | Running(request: Request, outcome: Outcome)

  /** The steps a job took and what its body returned or raised. */
  datatype JobRun = JobRun(steps: seq<JobStep>, result: Result<()>)

  /** Calling `run_process` inside a job. */
  function RunStep(req: Request, w: World): (r: JobRun)
    ensures r.steps == [Running(req, RunProcess(req, w))]
    ensures r.result.Ok? <==> RunProcess(req, w).result.Ok?
    ensures r.result.Err? ==> r.result.error == RunProcess(req, w).result.error
  {
    var o := RunProcess(req, w);
    JobRun([Running(req, o)], if o.result.Ok? then Ok(()) else Err(o.result.error))
  }

  /** Unlock, reject an empty key, sync, run with the fresh key. `unlocked`
      is the key `unlock` returned or the error it raised; `synced` is how
      `sync` ended. */
  function Refresh(clockType: string, dryRun: bool, headless: bool,
                   unlocked: Result<string>, synced: Result<SyncLog>, w: World): (r: JobRun)
    ensures |r.steps| >= 1 && r.steps[0] == Unlocking
    ensures unlocked.Err? ==> r == JobRun([Unlocking], Err(unlocked.error))
    ensures unlocked == Ok("") ==> r == JobRun([Unlocking], Err(RuntimeError(EmptyKeyMessage)))
    ensures unlocked.Ok? && unlocked.value != "" ==>
      |r.steps| >= 2 && r.steps[1] == Syncing(Client(Some(unlocked.value)))
    ensures unlocked.Ok? && unlocked.value != "" && synced.Err? ==>
      r == JobRun([Unlocking, Syncing(Client(Some(unlocked.value)))], Err(synced.error))
    ensures (|r.steps| == 3 && r.steps[2].Running?) <==>
      unlocked.Ok? && unlocked.value != "" && synced.Ok?
    ensures forall i :: 0 <= i < |r.steps| && r.steps[i].Running? ==>
      i == 2 && r.steps[i].request == Request(clockType, dryRun, Some(unlocked.value), headless)
    ensures forall i :: 0 <= i < |r.steps| && r.steps[i].Running? ==>
      r.steps[i].outcome == RunProcess(r.steps[i].request, w)
  {
    match unlocked
    case Err(e) => JobRun([Unlocking], Err(e))
    case Ok(key) =>
      if key == "" then JobRun([Unlocking], Err(RuntimeError(EmptyKeyMessage)))
      else match synced
        case Err(e) => JobRun([Unlocking, Syncing(Client(Some(key)))], Err(e))
        case Ok(_) => SyncedRun(key, Request(clockType, dryRun, Some(key), headless), w)
  }

  /** Whatever exit code `bw sync` returns, the job goes on to run with the
      fresh key; only a sync that cannot start stops it, with that error. */
  lemma SyncExitNeverStopsJob(clockType: string, dryRun: bool, headless: bool, key: string,
                              o: ProcOutcome, w: World)
    requires key != ""
    ensures var r := Refresh(clockType, dryRun, headless, Ok(key), Sync(o), w);
      && (|r.steps| == 3 && r.steps[2].Running? <==> o.Exited?)
      && (o.Exited? ==> r.steps[2] == Running(Request(clockType, dryRun, Some(key), headless),
                                              RunProcess(Request(clockType, dryRun, Some(key), headless), w)))
      && (o.LaunchFailed? ==> r.result == Err(OSError(o.reason)))
  {
  }

  /** After a sync under `key`: the one run with the request, as the third
      step. */
  function SyncedRun(key: string, req: Request, w: World): (r: JobRun)
    ensures |r.steps| == 3 && r.steps[0] == Unlocking && r.steps[1] == Syncing(Client(Some(key)))
    ensures r.steps[2] == Running(req, RunProcess(req, w))
    ensures forall i :: 0 <= i < |r.steps| && r.steps[i].Running? ==> i == 2 && r.steps[i].request == req
    ensures r.result.Ok? <==> RunProcess(req, w).result.Ok?
    ensures r.result.Err? ==> r.result.error == RunProcess(req, w).result.error
  {
    var run := RunStep(req, w);
    JobRun([Unlocking, Syncing(Client(Some(key)))] + run.steps, run.result)
  }

  /** The log lines a job writes: the start line, then exactly one of the
      completion line or the failure line. */
  function Journal(clockType: string, dryRun: bool, result: Result<()>): (log: seq<string>)
    ensures |log| == 2 && log[0] == StartMessage(clockType, dryRun)
    ensures result.Ok? ==> log[1] == CompletedMessage
    ensures result.Err? ==> log[1] == FailedMessage(result.error)
  {
    [StartMessage(clockType, dryRun), if result.Ok? then CompletedMessage else FailedMessage(result.error)]
  }

  /** What a service job answers from the world: the run's world, and the
      vault's replies to `unlock` and `sync`. */
  datatype JobWorld = JobWorld(run: World, unlock: ProcOutcome, sync: ProcOutcome)

  /** A job's log and run. */
  datatype JobOutcome = JobOutcome(log: seq<string>, run: JobRun)

  /** `JobService.run_job(clock_type, is_dry_run, master_password, headless)`.
      A cached item runs without a session key; otherwise a master password
      is required, and the session is refreshed through a fresh client. The
      body's error is logged and re-raised: it is `run.result`. */
  function RunJob(clockType: string, dryRun: bool, masterPassword: Option<string>, headless: bool, jw: JobWorld): (r: JobOutcome)
    ensures r.log == Journal(clockType, dryRun, r.run.result)
    ensures IsCached(jw.run.cache, jw.run.itemName) ==>
      r.run == RunStep(Request(clockType, dryRun, None, headless), jw.run)
    ensures !IsCached(jw.run.cache, jw.run.itemName) && !TruthyText(masterPassword) ==>
      r.run == JobRun([], Err(ValueError(NoPasswordMessage)))
    ensures !IsCached(jw.run.cache, jw.run.itemName) && TruthyText(masterPassword) ==>
      r.run == Refresh(clockType, dryRun, headless, Unlock(Client(None), jw.unlock).key, Sync(jw.sync), jw.run)
  {
    var run :=
      if IsCached(jw.run.cache, jw.run.itemName) then
        RunStep(Request(clockType, dryRun, None, headless), jw.run)
      else if !TruthyText(masterPassword) then
        JobRun([], Err(ValueError(NoPasswordMessage)))
      else
        Refresh(clockType, dryRun, headless, Unlock(Client(None), jw.unlock).key, Sync(jw.sync), jw.run);
    JobOutcome(Journal(clockType, dryRun, run.result), run)
  }

  /** On a miss, the key `run_process` receives is the unlocked one: the
      stripped, non-empty output of `unlock`, and the sync before it ran
      under that key. */
  lemma FreshKeyIsUsed(clockType: string, dryRun: bool, masterPassword: Option<string>, headless: bool, jw: JobWorld)
    requires !IsCached(jw.run.cache, jw.run.itemName)
    ensures var steps := RunJob(clockType, dryRun, masterPassword, headless, jw).run.steps;
      forall i :: 0 <= i < |steps| && steps[i].Running? ==>
        && i == 2
        && jw.unlock.Exited? && jw.unlock.code == 0
        && steps[i].request.sessionKey == Some(Strip(jw.unlock.stdout))
        && Strip(jw.unlock.stdout) != ""
        && Trimmed(Strip(jw.unlock.stdout))
        && steps[0] == Unlocking
        && steps[1] == Syncing(Client(Some(Strip(jw.unlock.stdout))))
  {
  }

  /** A job whose item is cached never touches the vault itself: no unlock,
      no sync, and `run_process` gets no session key. */
  lemma CacheHitSkipsUnlock(clockType: string, dryRun: bool, masterPassword: Option<string>, headless: bool, jw: JobWorld)
    requires IsCached(jw.run.cache, jw.run.itemName)
    ensures var steps := RunJob(clockType, dryRun, masterPassword, headless, jw).run.steps;
      && |steps| == 1 && steps[0].Running? && steps[0].request.sessionKey.None?
      && forall i :: 0 <= i < |steps| ==> !steps[i].Unlocking? && !steps[i].Syncing?
  {
    var req := Request(clockType, dryRun, None, headless);
    assert RunJob(clockType, dryRun, masterPassword, headless, jw).run.steps == [Running(req, RunProcess(req, jw.run))];
  }

  /** An entry stored empty passes the service's cache check, so the job
      runs without a key; `run_process` then misses on the same entry and
      asks the vault with a client holding no session key. */
  lemma EmptyEntryRunsKeyless(clockType: string, dryRun: bool, masterPassword: Option<string>, headless: bool, jw: JobWorld)
    requires jw.run.cache.file == Parsed(JObj(map[jw.run.itemName := JObj(map[])]))
    ensures var steps := RunJob(clockType, dryRun, masterPassword, headless, jw).run.steps;
      && |steps| == 1 && steps[0].Running?
      && steps[0].outcome.events[2] == ClientBuilt(Client(None))
      && steps[0].outcome.events[3] == VaultInvoked(GetItemCall(Client(None), jw.run.itemName, jw.run.ambient))
  {
    var req := Request(clockType, dryRun, None, headless);
    VaultClientIsLazy(req, jw.run);
  }

  /** A service job in dry-run mode presses no punch button in any run. */
  lemma JobDryRunNeverPunches(clockType: string, masterPassword: Option<string>, headless: bool, jw: JobWorld)
    ensures var steps := RunJob(clockType, true, masterPassword, headless, jw).run.steps;
      forall i :: 0 <= i < |steps| && steps[i].Running? ==> !PunchPressed(steps[i].outcome.events)
  {
    var steps := RunJob(clockType, true, masterPassword, headless, jw).run.steps;
    forall i | 0 <= i < |steps| && steps[i].Running?
      ensures !PunchPressed(steps[i].outcome.events)
    {
      assert steps[i].request.dryRun && steps[i].outcome == RunProcess(steps[i].request, jw.run);
      DryRunNeverPunches(steps[i].request, jw.run);
    }
  }

  /** What a dashboard's background runner leaves behind: it never raises. */
  datatype Swallowed = Swallowed(log: seq<string>, steps: seq<JobStep>)

  /** `robust_job_runner(clock_type, is_dry_run, master_password, headless)`
      as in src/interfaces/web/app.py and src/web_ui.py: always a fresh
      unlock, then the same refresh-and-run as the service, and every error
      is logged and dropped. */
  function RobustJobRunner(clockType: string, dryRun: bool, headless: bool,
                           unlocked: Result<string>, synced: Result<SyncLog>, w: World): (r: Swallowed)
    ensures |r.steps| >= 1 && r.steps[0] == Unlocking
    ensures r.steps == Refresh(clockType, dryRun, headless, unlocked, synced, w).steps
    ensures r.log == Journal(clockType, dryRun, Refresh(clockType, dryRun, headless, unlocked, synced, w).result)
  {
    var run := Refresh(clockType, dryRun, headless, unlocked, synced, w);
    Swallowed(Journal(clockType, dryRun, run.result), run.steps)
  }

  /** The runner and the service log the same lines for the same refresh. */
  lemma RunnerLogsLikeService(clockType: string, dryRun: bool, masterPassword: string, headless: bool, jw: JobWorld)
    requires !IsCached(jw.run.cache, jw.run.itemName) && masterPassword != ""
    ensures var svc := RunJob(clockType, dryRun, Some(masterPassword), headless, jw);
      var bg := RobustJobRunner(clockType, dryRun, headless, Unlock(Client(None), jw.unlock).key, Sync(jw.sync), jw.run);
      bg.log == svc.log && bg.steps == svc.run.steps
  {
  }
}
