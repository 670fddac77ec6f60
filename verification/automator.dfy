/** The portal automation (src/core/automator.py): logging in and pressing a
    punch button, with every driver call's outcome an input and the actions
    issued to the page an output. */
module Automator {
  import opened Base
  import opened Driver

  const NoDriverMessage := "WebDriverが起動していません"
  const LoginSourcePath := "output/error_login_source.html"

  /** How each driver call of the login sequence ends, in order: loading the
      portal page, the visible user-id field, the password field, the OK
      button becoming clickable, clicking it, and the punch-button container
      appearing; then, in the `except` handler, taking the screenshot and
      writing the page source to its file (which raises when the `output`
      directory is missing). */
  datatype LoginDriver = LoginDriver(open: Step, idField: Step, passwordField: Step,
                                     okButton: Step, okClick: Step, marker: Step,
                                     shot: Step, dump: Step)

  /** The driver calls of `login` after the page load, in order. */
  function BodyCalls(d: LoginDriver): seq<Step> {
    [d.idField] + ([d.passwordField] + ([d.okButton] + ([d.okClick] + [d.marker])))
  }

  /** All driver calls of `login`, in order. */
  function LoginCalls(d: LoginDriver): seq<Step> {
    [d.open] + BodyCalls(d)
  }

  /** The error of the first call that raised, if any. */
  function FirstRaised(steps: seq<Step>): (r: Option<Error>)
    ensures r.None? <==> forall i :: 0 <= i < |steps| ==> steps[i].Done?
  {
    if steps == [] then None
    else if steps[0].Raised? then Some(steps[0].e)
    else FirstRaised(steps[1..])
  }

  lemma FirstRaisedCons(s: Step, rest: seq<Step>)
    ensures FirstRaised([s] + rest) == if s.Raised? then Some(s.e) else FirstRaised(rest)
  {
    assert ([s] + rest)[1..] == rest;
  }

  /** A driver call that issues `acts` when it succeeds. */
  function StepRun(s: Step, acts: seq<Action>): Run {
    match s
    case Done => Run(acts, Ok(()))
    case Raised(e) => Run([], Err(e))
  }

  /** The part of `login` inside its `try`. */
  function LoginBody(username: Json, password: Json, d: LoginDriver): (r: Run)
    ensures r.outcome.Ok? <==> FirstRaised(BodyCalls(d)).None?
    ensures r.outcome.Err? ==> r.outcome.error == FirstRaised(BodyCalls(d)).value
    ensures r.outcome.Ok? ==> r.trace == [Fill("id", username), Fill("password", password), Click(LoginButton)]
    ensures r.trace <= [Fill("id", username), Fill("password", password), Click(LoginButton)]
  {
    FirstRaisedCons(d.idField, [d.passwordField] + ([d.okButton] + ([d.okClick] + [d.marker])));
    FirstRaisedCons(d.passwordField, [d.okButton] + ([d.okClick] + [d.marker]));
    FirstRaisedCons(d.okButton, [d.okClick] + [d.marker]);
    FirstRaisedCons(d.okClick, [d.marker]);
    FirstRaisedCons(d.marker, []);
    Then(StepRun(d.idField, [Fill("id", username)]),
    Then(StepRun(d.passwordField, [Fill("password", password)]),
    Then(StepRun(d.okButton, []),
    Then(StepRun(d.okClick, [Click(LoginButton)]),
         StepRun(d.marker, [])))))
  }

  /** The actions of the `except` handler of `login` for the error `e`: a
      screenshot named after the kind of failure and, if the screenshot did
      not raise, the attempt to write the page source. */
  function LoginDiagnostics(e: Error, shot: Step): seq<Action> {
    [Screenshot(if e.WebDriverTimeout? then "output/error_login_timeout.png" else "output/error_login_generic.png")]
      + (if shot.Done? then [SavePageSource(LoginSourcePath)] else [])
  }

  /** What leaves an `except` handler that diagnoses and then re-raises `e`:
      the error of the first diagnostic call that raised, else `e`. */
  function Reraised(e: Error, shot: Step, dump: Step): Error {
    if shot.Raised? then shot.e else if dump.Raised? then dump.e else e
  }

  /** `login(username, password)`. Without a driver it raises RuntimeError
      before touching the page. Loading the page sits outside the `try`, so
      its failure propagates bare; any failure after that leaves a screenshot
      and a page dump and is re-raised unchanged, unless a diagnostic call
      raises itself: then its error leaves `login` instead. It succeeds only
      once the punch-button container is present. */
  function Login(driverPresent: bool, url: string, username: Json, password: Json, d: LoginDriver): (r: Run)
    ensures !driverPresent ==> r == Run([], Err(RuntimeError(NoDriverMessage)))
    ensures r.outcome.Ok? <==>
      driverPresent && FirstRaised(LoginCalls(d)).None?
    ensures r.outcome.Ok? ==>
      r.trace == [Navigate(url), Fill("id", username), Fill("password", password), Click(LoginButton)]
    ensures driverPresent && r.outcome.Err? && (d.open.Raised? || (d.shot.Done? && d.dump.Done?)) ==>
      r.outcome.error == FirstRaised(LoginCalls(d)).value
    ensures driverPresent && d.open.Done? && r.outcome.Err? && !(d.shot.Done? && d.dump.Done?) ==>
      r.outcome.error == (if d.shot.Raised? then d.shot.e else d.dump.e)
    ensures driverPresent && d.open.Done? && r.outcome.Err? ==>
      var diag := LoginDiagnostics(FirstRaised(LoginCalls(d)).value, d.shot);
      |r.trace| >= 1 + |diag| && r.trace[|r.trace| - |diag|..] == diag
  {
    FirstRaisedCons(d.open, BodyCalls(d));
    if !driverPresent then Run([], Err(RuntimeError(NoDriverMessage)))
    else if d.open.Raised? then Run([Navigate(url)], Err(d.open.e))
    else
      var body := LoginBody(username, password, d);
      if body.outcome.Ok? then LoginAfterOpen(url, body, Run([], Ok(())))
      else
        var e := body.outcome.error;
        LoginAfterOpen(url, body, Run(LoginDiagnostics(e, d.shot), Err(Reraised(e, d.shot, d.dump))))
  }

  /** A `login` once the page has loaded: the body's actions after the page
      load and, when the body raised, the handler's run `diag` last, whose
      outcome is the login's. */
  function LoginAfterOpen(url: string, body: Run, diag: Run): (r: Run)
    ensures body.outcome.Ok? ==> r == Run([Navigate(url)] + body.trace, body.outcome)
    ensures body.outcome.Err? ==> r.outcome == diag.outcome
    ensures body.outcome.Err? ==> |r.trace| >= 1 + |diag.trace| && r.trace[|r.trace| - |diag.trace|..] == diag.trace
  {
    if body.outcome.Ok? then Run([Navigate(url)] + body.trace, body.outcome)
    else Run([Navigate(url)] + body.trace + diag.trace, diag.outcome)
  }

  /** Logging in never presses a punch button, whichever call raises. */
  lemma LoginNeverPunches(driverPresent: bool, url: string, username: Json, password: Json, d: LoginDriver)
    ensures NoPunchPress(Login(driverPresent, url, username, password, d).trace)
  {
    var body := LoginBody(username, password, d);
    PrefixNoPunch(body.trace, [Fill("id", username), Fill("password", password), Click(LoginButton)]);
    NoPunchPressAppend([Navigate(url)], body.trace);
    if body.outcome.Err? {
      NoPunchPressAppend([Navigate(url)] + body.trace, LoginDiagnostics(body.outcome.error, d.shot));
    }
  }

  /** How each driver call of the punch routine ends: waiting for the
      notification overlay to vanish, waiting for the punch button to become
      clickable, the click, the script click used as fallback, and the alert
      check after a live click; and the screenshot the error handler takes,
      which can raise in its turn and then replaces the error. */
  datatype ClickStep = Clicked | Intercepted | ClickRaised(e: Error)
  datatype AlertStep = NoAlert | AlertAccepted | AlertRaised
  datatype PunchDriver = PunchDriver(overlay: Step, target: Step, click: ClickStep,
                                     scriptClick: Step, alert: AlertStep, shot: Step)

  /** `.record-{button_type}` */
  function PunchSelector(buttonType: string): string {
    ".record-" + buttonType
  }

  /** The screenshot the punch routine leaves when it raises. */
  function PunchScreenshot(buttonType: string, e: Error): string {
    if e.WebDriverTimeout? then "output/error_" + buttonType + "_not_found.png"
    else "output/error_" + buttonType + "_generic.png"
  }

  function AlertActions(a: AlertStep): seq<Action> {
    if a.AlertAccepted? then [AcceptAlert] else []
  }

  /** The part of the punch routine inside its `try`. The overlay wait ends
      however it ends and the routine goes on. */
  function PunchBody(dryRun: bool, css: string, d: PunchDriver): Run {
    var t := PunchButton(css);
    if d.target.Raised? then Run([], Err(d.target.e))
    else if dryRun then Run([], Ok(()))
    else match d.click
      case Clicked => Run([Click(t)] + AlertActions(d.alert), Ok(()))
      case ClickRaised(e) => Run([Click(t)], Err(e))
      case Intercepted =>
        match d.scriptClick
        case Raised(e) => Run([Click(t), ScriptClick(t)], Err(e))
        case Done => Run([Click(t), ScriptClick(t)] + AlertActions(d.alert), Ok(()))
  }

  /** `_click_record_button(button_type, label)`. */
  function Punch(driverPresent: bool, dryRun: bool, buttonType: string, d: PunchDriver): (r: Run)
    ensures !driverPresent ==> r == Run([], Err(RuntimeError(NoDriverMessage)))
    ensures dryRun ==> NoPunchPress(r.trace)
    ensures dryRun && driverPresent && d.target.Done? ==> r == Run([], Ok(()))
    ensures driverPresent && d.target.Done? && !dryRun ==>
      |r.trace| > 0 && r.trace[0] == Click(PunchButton(PunchSelector(buttonType)))
    ensures r.outcome.Ok? <==>
      driverPresent && d.target.Done? &&
      (dryRun || d.click.Clicked? || (d.click.Intercepted? && d.scriptClick.Done?))
    ensures driverPresent && r.outcome.Err? ==> |r.trace| > 0 && r.trace[|r.trace| - 1].Screenshot?
    ensures driverPresent && r.outcome.Err? && d.shot.Done? ==>
      r.trace[|r.trace| - 1] == Screenshot(PunchScreenshot(buttonType, r.outcome.error))
    ensures driverPresent && r.outcome.Err? && d.shot.Raised? ==> r.outcome.error == d.shot.e
    ensures driverPresent && d.target.Raised? ==>
      r == Run([Screenshot(PunchScreenshot(buttonType, d.target.e))],
               Err(if d.shot.Raised? then d.shot.e else d.target.e))
    ensures forall i :: 0 <= i < |r.trace| && PressesPunch(r.trace[i]) ==>
      r.trace[i].target == PunchButton(PunchSelector(buttonType))
    ensures (exists i :: 0 <= i < |r.trace| && r.trace[i].ScriptClick?) <==>
      driverPresent && d.target.Done? && !dryRun && d.click.Intercepted?
    ensures forall i, j :: 0 <= i < j < |r.trace| && r.trace[i].ScriptClick? ==> !r.trace[j].ScriptClick?
  {
    if !driverPresent then Run([], Err(RuntimeError(NoDriverMessage)))
    else
      var body := PunchBody(dryRun, PunchSelector(buttonType), d);
      assert d.target.Done? && !dryRun && d.click.Intercepted? ==> body.trace[1].ScriptClick?;
      if body.outcome.Ok? then body
      else
        var trace := body.trace + [Screenshot(PunchScreenshot(buttonType, body.outcome.error))];
        assert d.target.Done? && !dryRun && d.click.Intercepted? ==> trace[1].ScriptClick?;
        Run(trace, Err(Reraised(body.outcome.error, d.shot, Done)))
  }

  /** The overlay wait never decides anything: a timeout or any other error
      there yields exactly the run a vanished overlay would. */
  lemma PunchIgnoresOverlay(driverPresent: bool, dryRun: bool, buttonType: string, d: PunchDriver, overlay: Step)
    ensures Punch(driverPresent, dryRun, buttonType, d.(overlay := overlay)) == Punch(driverPresent, dryRun, buttonType, d)
  {
  }

  /** Whatever happens with the alert after a live click, the punch outcome
      is the same. */
  lemma PunchIgnoresAlert(driverPresent: bool, dryRun: bool, buttonType: string, d: PunchDriver, alert: AlertStep)
    ensures Punch(driverPresent, dryRun, buttonType, d.(alert := alert)).outcome == Punch(driverPresent, dryRun, buttonType, d).outcome
  {
  }

  /** `clock_in()` */
  function ClockIn(driverPresent: bool, dryRun: bool, d: PunchDriver): (r: Run)
    ensures forall i :: 0 <= i < |r.trace| && PressesPunch(r.trace[i]) ==> r.trace[i].target == PunchButton(".record-clock-in")
    ensures dryRun ==> NoPunchPress(r.trace)
  {
    Punch(driverPresent, dryRun, "clock-in", d)
  }

  /** `clock_out()` */
  function ClockOut(driverPresent: bool, dryRun: bool, d: PunchDriver): (r: Run)
    ensures forall i :: 0 <= i < |r.trace| && PressesPunch(r.trace[i]) ==> r.trace[i].target == PunchButton(".record-clock-out")
    ensures dryRun ==> NoPunchPress(r.trace)
  {
    Punch(driverPresent, dryRun, "clock-out", d)
  }
}
