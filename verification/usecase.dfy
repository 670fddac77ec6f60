/** The clock-in use case (src/core/usecase.py): set the dry-run flag, give
    the time-window advice, resolve credentials through the cache and the
    vault, then log in and press the button for the requested type inside a
    browser scope. Everything it consults is an input; what it does is a
    sequence of events. */
module Usecase {
  import opened Base
  import opened Clock
  import Validator
  import opened Bitwarden
  import opened Credentials
  import opened Driver
  import Automator

  /** The arguments of `run_process`. */
  datatype Request = Request(clockType: string, dryRun: bool, sessionKey: Option<string>, headless: bool)

  /** What the world answers during one run: the clock, the configured item
      name and portal address, the parent's environment, the cache, the
      vault's reply to the item request, how writing the cache goes, and how
      the browser's calls end. */
  datatype World = World(
    now: TimeOfDay, itemName: string, url: string, ambient: map<string, string>,
    cache: Cache, vault: ProcOutcome, parse: Parser, cacheWrite: WriteOutcome,
    setup: Step, login: Automator.LoginDriver, punch: Automator.PunchDriver)

  /** One observable step of a run. */
  datatype Event =
    | DryRunSet(dryRun: bool)
    | Advised(advisory: Validator.Advisory)
    | ClientBuilt(client: Client)
    | VaultInvoked(call: Invocation)
    | Browser(action: Action)

  /** The stage of the run an event belongs to. */
  function Phase(e: Event): nat {
    match e
    case DryRunSet(_) => 0
    case Advised(_) => 1
    case ClientBuilt(_) => 2
    case VaultInvoked(_) => 2
    case Browser(_) => 3
  }

  predicate PhasesInOrder(es: seq<Event>) {
    forall i, j :: 0 <= i < j < |es| ==> Phase(es[i]) <= Phase(es[j])
  }

  /** A run: its events, the cache afterwards, and what `run_process`
      returned or raised. */
  datatype Outcome = Outcome(events: seq<Event>, cache: Cache, result: Result<bool>)

  /** The events the credential resolver's vault calls show up as. The
      factory builds a client holding the caller's session key, the default
      client holds none, and the item request runs under the environment of
      the client that was built. */
  function VaultEvents(calls: seq<VaultCall>, key: Option<string>, ambient: map<string, string>): (es: seq<Event>)
    ensures |es| == |calls|
    ensures forall i :: 0 <= i < |es| ==> Phase(es[i]) == 2
    ensures forall i :: 0 <= i < |es| ==> calls[i] == FactoryInvoked ==> es[i] == ClientBuilt(Client(key))
    ensures forall i :: 0 <= i < |es| ==> calls[i].LoginItemFetched? ==>
      es[i] == VaultInvoked(GetItemCall(RequestClient(calls, i, key), calls[i].item, ambient))
  {
    seq(|calls|, i requires 0 <= i < |calls| =>
      match calls[i]
      case FactoryInvoked => ClientBuilt(Client(key))
      case DefaultClientBuilt => ClientBuilt(Client(None))
      case LoginItemFetched(item) => VaultInvoked(GetItemCall(RequestClient(calls, i, key), item, ambient)))
  }

  /** The client a request at position `i` goes through: the default one,
      holding no key, right after it was built; otherwise the factory's. */
  function RequestClient(calls: seq<VaultCall>, i: int, key: Option<string>): Client {
    if 0 < i <= |calls| && calls[i - 1].DefaultClientBuilt? then Client(None) else Client(key)
  }

  function BrowserEvents(t: seq<Action>): (es: seq<Event>)
    ensures |es| == |t|
    ensures forall i :: 0 <= i < |es| ==> es[i] == Browser(t[i])
  {
    seq(|t|, i requires 0 <= i < |t| => Browser(t[i]))
  }

  /** A browser event that presses a punch button. */
  predicate PunchPressed(es: seq<Event>) {
    exists i :: 0 <= i < |es| && es[i].Browser? && PressesPunch(es[i].action)
  }

  /** The `if clock_type == "in" … elif "out"` dispatch after login; any
      other type does nothing more. The driver is present inside the scope. */
  function Dispatch(clockType: string, dryRun: bool, d: Automator.PunchDriver): (r: Run)
  {
    if clockType == "in" then Automator.ClockIn(true, dryRun, d)
    else if clockType == "out" then Automator.ClockOut(true, dryRun, d)
    else Run([], Ok(()))
  }

  /** The `with TouchOnTimeAutomator(headless) as bot:` block. */
  function Session(req: Request, w: World, username: Json, password: Json): (r: Run)
  {
    Scoped(req.headless, w.setup,
      Then(Automator.Login(true, w.url, username, password, w.login),
           Dispatch(req.clockType, req.dryRun, w.punch)))
  }

  /** The credential resolution a run performs: the cache first, and the
      vault through the factory on a miss. */
  function Resolve(w: World): (r: Resolution)
  {
    GetCredentials(w.cache, w.itemName, true, GetLoginItem(w.vault, w.parse), w.cacheWrite)
  }

  /** A live dispatch for "in" or "out" with its button found starts by
      clicking that button; any other type does nothing and succeeds. */
  lemma DispatchClicksRequested(clockType: string, dryRun: bool, d: Automator.PunchDriver)
    ensures var r := Dispatch(clockType, dryRun, d);
      && ((clockType == "in" || clockType == "out") && !dryRun && d.target.Done? ==>
            |r.trace| > 0 && r.trace[0] == Click(PunchButton(".record-clock-" + clockType)))
      && (clockType != "in" && clockType != "out" ==> r == Run([], Ok(())))
  {
    assert Automator.PunchSelector("clock-in") == ".record-clock-" + "in";
    assert Automator.PunchSelector("clock-out") == ".record-clock-" + "out";
  }

  /** The browser scope of a run: the browser is launched first, with the
      requested visibility, and once started it is quit last. The scope
      succeeds exactly when the browser starts, login succeeds and the
      dispatch succeeds; a failed login is what the scope raises. */
  lemma SessionShape(req: Request, w: World, username: Json, password: Json)
    ensures var r := Session(req, w, username, password);
      var login := Automator.Login(true, w.url, username, password, w.login);
      && |r.trace| > 0 && r.trace[0] == Launch(req.headless)
      && (w.setup.Done? ==> r.trace[|r.trace| - 1] == Quit)
      && (r.outcome.Ok? <==> w.setup.Done? && login.outcome.Ok? && Dispatch(req.clockType, req.dryRun, w.punch).outcome.Ok?)
      && (w.setup.Done? && login.outcome.Err? ==> r.outcome == login.outcome)
  {
  }

  /** A run resolves its credentials through the factory: a truthy cache hit
      makes no vault call; otherwise the factory's client is built and asked
      once for the item, and what that request returns is the credentials. */
  lemma ResolveUsesFactory(w: World)
    ensures var r := Resolve(w);
      && (r.calls == [] || r.calls == [FactoryInvoked, LoginItemFetched(w.itemName)])
      && (r.calls == [] <==> IsCached(w.cache, w.itemName) && Truthy(Load(w.cache.file, w.itemName).value))
      && (r.calls != [] ==> r.creds == GetLoginItem(w.vault, w.parse))
  {
  }

  /** The events before the browser: the flag, the advice, the vault calls. */
  function Head(req: Request, w: World, calls: seq<VaultCall>): (es: seq<Event>)
    ensures |es| == 2 + |calls|
    ensures es[0] == DryRunSet(req.dryRun) && es[1] == Advised(Validator.ValidateTime(req.clockType, w.now))
    ensures forall i :: 0 <= i < |es| ==> Phase(es[i]) <= 2
    ensures forall i :: 2 <= i < |es| ==> Phase(es[i]) == 2
    ensures PhasesInOrder(es)
  {
    [DryRunSet(req.dryRun), Advised(Validator.ValidateTime(req.clockType, w.now))]
      + VaultEvents(calls, req.sessionKey, w.ambient)
  }

  /** Browser events appended after earlier stages keep the stages in order. */
  lemma InOrderAppend(head: seq<Event>, tail: seq<Event>)
    requires PhasesInOrder(head)
    requires forall i :: 0 <= i < |head| ==> Phase(head[i]) <= 2
    requires forall i :: 0 <= i < |tail| ==> tail[i].Browser?
    ensures PhasesInOrder(head + tail)
  {
    var es := head + tail;
    forall i, j | 0 <= i < j < |es|
      ensures Phase(es[i]) <= Phase(es[j])
    {
      if j < |head| {
        assert es[i] == head[i] && es[j] == head[j];
      } else {
        assert es[j] == tail[j - |head|];
      }
    }
  }

  /** The events of a run that reached the browser, and its result. */
  function Finish(head: seq<Event>, cache: Cache, run: Run): (r: Outcome)
    requires forall i :: 0 <= i < |head| ==> Phase(head[i]) <= 2
    requires PhasesInOrder(head)
    ensures |r.events| == |head| + |run.trace|
    ensures r.events[..|head|] == head
    ensures forall i :: 0 <= i < |run.trace| ==> r.events[|head| + i] == Browser(run.trace[i])
    ensures PhasesInOrder(r.events)
    ensures r.result.Ok? <==> run.outcome.Ok?
    ensures r.result.Ok? ==> r.result.value
    ensures r.result.Err? ==> r.result.error == run.outcome.error
    ensures r.cache == cache
  {
    InOrderAppend(head, BrowserEvents(run.trace));
    Outcome(head + BrowserEvents(run.trace), cache, if run.outcome.Ok? then Ok(true) else Err(run.outcome.error))
  }

  /** `run_process(clock_type, is_dry_run, session_key, headless)`. */
  function RunProcess(req: Request, w: World): (r: Outcome)
    ensures |r.events| >= 2 && r.events[0] == DryRunSet(req.dryRun)
    ensures r.events[1] == Advised(Validator.ValidateTime(req.clockType, w.now))
    ensures PhasesInOrder(r.events)
    ensures r.result != Ok(false)
    ensures r.cache == Resolve(w).cache
    ensures LoginFields(Resolve(w).creds).Err? ==>
      r.result == Err(LoginFields(Resolve(w).creds).error) && forall i :: 0 <= i < |r.events| ==> !r.events[i].Browser?
    ensures Resolve(w).creds.Err? ==> r.result == Err(Resolve(w).creds.error)
  {
    var res := Resolve(w);
    var head := Head(req, w, res.calls);
    match LoginFields(res.creds)
    case Err(e) => Outcome(head, res.cache, Err(e))
    case Ok(pair) => Finish(head, res.cache, Session(req, w, pair.0, pair.1))
  }

  /** `creds["username"]`, `creds["password"]`, raising as a subscript does:
      KeyError for the first missing key, TypeError when the credentials are
      a truthy cached value that is no object. */
  function LoginFields(creds: Result<Json>): (r: Result<(Json, Json)>)
    ensures r.Ok? <==>
      creds.Ok? && creds.value.JObj? && "username" in creds.value.fields && "password" in creds.value.fields
    ensures r.Ok? ==> r.value == (creds.value.fields["username"], creds.value.fields["password"])
    ensures creds.Err? ==> r == Err(creds.error)
    ensures creds.Ok? && creds.value.JObj? && "username" !in creds.value.fields ==> r == Err(KeyError("username"))
    ensures creds.Ok? && creds.value.JObj? && "username" in creds.value.fields && "password" !in creds.value.fields ==>
      r == Err(KeyError("password"))
    ensures creds.Ok? && !creds.value.JObj? ==> r.Err? && r.error.TypeError?
  {
    var c :- creds;
    var username :- Index(c, "username");
    var password :- Index(c, "password");
    Ok((username, password))
  }

  /** The browser events of a run that resolved credentials: the scope's
      trace, after the vault events. */
  lemma SessionEvents(req: Request, w: World)
    requires LoginFields(Resolve(w).creds).Ok?
    ensures var res := Resolve(w);
      var pair := LoginFields(res.creds).value;
      var run := Session(req, w, pair.0, pair.1);
      var r := RunProcess(req, w);
      && |r.events| == 2 + |res.calls| + |run.trace|
      && (forall i :: 0 <= i < 2 + |res.calls| ==> !r.events[i].Browser?)
      && (forall i :: 0 <= i < |run.trace| ==> r.events[2 + |res.calls| + i] == Browser(run.trace[i]))
      && r.result == (if run.outcome.Ok? then Ok(true) else Err(run.outcome.error))
  {
    var res := Resolve(w);
    var pair := LoginFields(res.creds).value;
    var head := Head(req, w, res.calls);
    assert RunProcess(req, w) == Finish(head, res.cache, Session(req, w, pair.0, pair.1));
  }

  /** The browser run is a dry run all the way through: with the flag set,
      no punch button is pressed, whatever the world does. */
  lemma DryRunNeverPunches(req: Request, w: World)
    requires req.dryRun
    ensures !PunchPressed(RunProcess(req, w).events)
  {
    var res := Resolve(w);
    if LoginFields(res.creds).Ok? {
      SessionEvents(req, w);
      var pair := LoginFields(res.creds).value;
      SessionNoPunch(req, w, pair.0, pair.1);
    }
  }

  /** Within the browser scope of a dry run, no punch button is pressed. */
  lemma SessionNoPunch(req: Request, w: World, username: Json, password: Json)
    requires req.dryRun
    ensures NoPunchPress(Session(req, w, username, password).trace)
  {
    var login := Automator.Login(true, w.url, username, password, w.login);
    var punch := Dispatch(req.clockType, req.dryRun, w.punch);
    Automator.LoginNeverPunches(true, w.url, username, password, w.login);
    NoPunchPressAppend(login.trace, punch.trace);
    NoPunchPressAppend([Launch(req.headless)], Then(login, punch).trace);
    NoPunchPressAppend([Launch(req.headless)] + Then(login, punch).trace, [Quit]);
  }

  /** An action that, if it presses a punch button, presses the one of the
      requested type. */
  predicate PressFitsType(clockType: string, a: Action) {
    PressesPunch(a) ==>
      || (clockType == "in" && a.target == PunchButton(".record-clock-in"))
      || (clockType == "out" && a.target == PunchButton(".record-clock-out"))
  }

  predicate PressesFitType(clockType: string, t: seq<Action>) {
    forall i :: 0 <= i < |t| ==> PressFitsType(clockType, t[i])
  }

  lemma PressesFitAppend(clockType: string, a: seq<Action>, b: seq<Action>)
    requires PressesFitType(clockType, a) && PressesFitType(clockType, b)
    ensures PressesFitType(clockType, a + b)
  {
    forall i | 0 <= i < |a + b|
      ensures PressFitsType(clockType, (a + b)[i])
    {
      if i >= |a| {
        assert (a + b)[i] == b[i - |a|];
      }
    }
  }

  /** Within the browser scope, only the requested button is pressed. */
  lemma SessionPressesFit(req: Request, w: World, username: Json, password: Json)
    ensures PressesFitType(req.clockType, Session(req, w, username, password).trace)
  {
    var login := Automator.Login(true, w.url, username, password, w.login);
    var punch := Dispatch(req.clockType, req.dryRun, w.punch);
    Automator.LoginNeverPunches(true, w.url, username, password, w.login);
    assert PressesFitType(req.clockType, login.trace);
    assert PressesFitType(req.clockType, punch.trace);
    PressesFitAppend(req.clockType, login.trace, punch.trace);
    var body := Then(login, punch);
    assert PressesFitType(req.clockType, body.trace);
    PressesFitAppend(req.clockType, [Launch(req.headless)], body.trace);
    PressesFitAppend(req.clockType, [Launch(req.headless)] + body.trace, [Quit]);
  }

  /** Every punch press in a run targets the button of the requested type:
      "in" presses only the clock-in button, "out" only the clock-out one,
      and any other type presses nothing. */
  lemma PressesOnlyRequestedButton(req: Request, w: World)
    ensures var es := RunProcess(req, w).events;
      forall i :: 0 <= i < |es| && es[i].Browser? ==> PressFitsType(req.clockType, es[i].action)
  {
    var res := Resolve(w);
    if LoginFields(res.creds).Ok? {
      SessionEvents(req, w);
      var pair := LoginFields(res.creds).value;
      SessionPressesFit(req, w, pair.0, pair.1);
    }
  }

  /** The browser is opened with the caller's headless setting: the first
      browser event of any run that reaches the browser is that launch. */
  lemma HeadlessPassedThrough(req: Request, w: World)
    ensures var es := RunProcess(req, w).events;
      forall i :: 0 <= i < |es| && es[i].Browser? ==>
        exists j :: 0 <= j <= i && es[j] == Browser(Launch(req.headless))
  {
    var res := Resolve(w);
    if LoginFields(res.creds).Ok? {
      SessionEvents(req, w);
      var es := RunProcess(req, w).events;
      assert es[2 + |res.calls|] == Browser(Launch(req.headless));
    }
  }

  /** A truthy cache hit builds no vault client and makes no vault call; a
      miss builds exactly one client, holding the caller's session key, and
      makes exactly one item request under that client's environment. */
  lemma VaultClientIsLazy(req: Request, w: World)
    ensures var es := RunProcess(req, w).events;
      var hit := Load(w.cache.file, w.itemName).Some? && Truthy(Load(w.cache.file, w.itemName).value);
      && (hit ==> forall i :: 0 <= i < |es| ==> Phase(es[i]) != 2)
      && (!hit ==> es[2] == ClientBuilt(Client(req.sessionKey))
                   && es[3] == VaultInvoked(GetItemCall(Client(req.sessionKey), w.itemName, w.ambient))
                   && forall i :: 4 <= i < |es| ==> Phase(es[i]) != 2)
  {
    var res := Resolve(w);
    if LoginFields(res.creds).Ok? {
      SessionEvents(req, w);
    }
  }

  /** What `run_process` returns: True exactly when the credentials hold both
      fields, the browser starts, login succeeds and the requested punch
      succeeds; otherwise the first error met, unchanged. A type other than
      "in" or "out" only logs in and still returns True. */
  lemma ReturnsTrueOrReraises(req: Request, w: World)
    ensures var res := Resolve(w);
      var fields := LoginFields(res.creds);
      var r := RunProcess(req, w);
      && (fields.Err? ==> r.result == Err(fields.error))
      && (fields.Ok? ==>
            var login := Automator.Login(true, w.url, fields.value.0, fields.value.1, w.login);
            var punch := Dispatch(req.clockType, req.dryRun, w.punch);
            && (w.setup.Raised? ==> r.result == Err(w.setup.e))
            && (w.setup.Done? && login.outcome.Err? ==> r.result == Err(login.outcome.error))
            && (w.setup.Done? && login.outcome.Ok? ==>
                  r.result == (if punch.outcome.Ok? then Ok(true) else Err(punch.outcome.error)))
            && (req.clockType != "in" && req.clockType != "out" && w.setup.Done? && login.outcome.Ok? ==>
                  r.result == Ok(true)))
  {
    var res := Resolve(w);
    if LoginFields(res.creds).Ok? {
      SessionEvents(req, w);
    }
  }
}
