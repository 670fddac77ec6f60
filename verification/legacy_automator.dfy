/** The older portal automation (src/automator.py). Its login presses OK
    without waiting for the main screen, and its punch routine has no
    overlay wait, no script-click fallback and no alert handling; its
    diagnostics are written to the working directory. */
module LegacyAutomator {
  import opened Base
  import opened Driver
  import Automator

  /** How each driver call of the legacy login ends: loading the page, the
      visible user-id field, the password field, finding the OK button and
      clicking it; then, in the `except` handler, taking the screenshot and
      writing the page source. */
  datatype LoginDriver = LoginDriver(open: Step, idField: Step, passwordField: Step,
                                     okButton: Step, okClick: Step, shot: Step, dump: Step)

  /** The driver calls of the legacy login after the page load, in order. */
  function BodyCalls(d: LoginDriver): seq<Step> {
    [d.idField] + ([d.passwordField] + ([d.okButton] + [d.okClick]))
  }

  /** All driver calls of the legacy login, in order. */
  function LoginCalls(d: LoginDriver): seq<Step> {
    [d.open] + BodyCalls(d)
  }

  /** The actions of the legacy `except` handler for the error `e`, in the
      working directory; the page source is attempted only after a
      screenshot that did not raise. */
  function LoginDiagnostics(e: Error, shot: Step): seq<Action> {
    [Screenshot(if e.WebDriverTimeout? then "error_login_timeout.png" else "error_login_generic.png")]
      + (if shot.Done? then [SavePageSource("error_login_source.html")] else [])
  }

  function LoginBody(username: Json, password: Json, d: LoginDriver): (r: Run)
    ensures r.outcome.Ok? <==> Automator.FirstRaised(BodyCalls(d)).None?
    ensures r.outcome.Err? ==> r.outcome.error == Automator.FirstRaised(BodyCalls(d)).value
    ensures r.outcome.Ok? ==> r.trace == [Fill("id", username), Fill("password", password), Click(LoginButton)]
    ensures r.trace <= [Fill("id", username), Fill("password", password), Click(LoginButton)]
  {
    Automator.FirstRaisedCons(d.idField, [d.passwordField] + ([d.okButton] + [d.okClick]));
    Automator.FirstRaisedCons(d.passwordField, [d.okButton] + [d.okClick]);
    Automator.FirstRaisedCons(d.okButton, [d.okClick]);
    Automator.FirstRaisedCons(d.okClick, []);
    Then(Automator.StepRun(d.idField, [Fill("id", username)]),
    Then(Automator.StepRun(d.passwordField, [Fill("password", password)]),
    Then(Automator.StepRun(d.okButton, []),
         Automator.StepRun(d.okClick, [Click(LoginButton)]))))
  }

  /** Legacy `login`: succeeds as soon as OK has been clicked. A failure
      after the page load is diagnosed and re-raised unchanged, unless a
      diagnostic call raises itself: then its error leaves `login`. */
  function Login(driverPresent: bool, url: string, username: Json, password: Json, d: LoginDriver): (r: Run)
    ensures !driverPresent ==> r == Run([], Err(RuntimeError(Automator.NoDriverMessage)))
    ensures r.outcome.Ok? <==>
      driverPresent && Automator.FirstRaised(LoginCalls(d)).None?
    ensures r.outcome.Ok? ==>
      r.trace == [Navigate(url), Fill("id", username), Fill("password", password), Click(LoginButton)]
    ensures driverPresent && r.outcome.Err? && (d.open.Raised? || (d.shot.Done? && d.dump.Done?)) ==>
      r.outcome.error == Automator.FirstRaised(LoginCalls(d)).value
    ensures driverPresent && d.open.Done? && r.outcome.Err? && !(d.shot.Done? && d.dump.Done?) ==>
      r.outcome.error == (if d.shot.Raised? then d.shot.e else d.dump.e)
    ensures driverPresent && d.open.Done? && r.outcome.Err? ==>
      var diag := LoginDiagnostics(Automator.FirstRaised(LoginCalls(d)).value, d.shot);
      |r.trace| >= 1 + |diag| && r.trace[|r.trace| - |diag|..] == diag
  {
    Automator.FirstRaisedCons(d.open, BodyCalls(d));
    if !driverPresent then Run([], Err(RuntimeError(Automator.NoDriverMessage)))
    else if d.open.Raised? then Run([Navigate(url)], Err(d.open.e))
    else
      var body := LoginBody(username, password, d);
      if body.outcome.Ok? then Automator.LoginAfterOpen(url, body, Run([], Ok(())))
      else
        var e := body.outcome.error;
        Automator.LoginAfterOpen(url, body, Run(LoginDiagnostics(e, d.shot), Err(Automator.Reraised(e, d.shot, d.dump))))
  }

  /** The legacy login never presses a punch button. */
  lemma LoginNeverPunches(driverPresent: bool, url: string, username: Json, password: Json, d: LoginDriver)
    ensures NoPunchPress(Login(driverPresent, url, username, password, d).trace)
  {
    var body := LoginBody(username, password, d);
    PrefixNoPunch(body.trace, [Fill("id", username), Fill("password", password), Click(LoginButton)]);
    NoPunchPressAppend([Navigate(url)], body.trace);
    if body.outcome.Err? {
      NoPunchPressAppend([Navigate(url)] + body.trace, LoginDiagnostics(body.outcome.error, d.shot));
    }
  }

  /** How the legacy punch routine's driver calls end: the wait for the
      button to become clickable, the click, and the error handler's
      screenshot, whose own error replaces the one being handled. */
  datatype PunchDriver = PunchDriver(target: Step, click: Step, shot: Step)

  function PunchScreenshot(buttonType: string, e: Error): string {
    if e.WebDriverTimeout? then "error_" + buttonType + "_not_found.png"
    else "error_" + buttonType + "_generic.png"
  }

  /** Legacy `_click_record_button`. In dry-run mode it returns once the
      button is clickable; a live click that raises, intercepted or not, is
      not retried: it leaves a screenshot and propagates. */
  function Punch(driverPresent: bool, dryRun: bool, buttonType: string, d: PunchDriver): (r: Run)
    ensures !driverPresent ==> r == Run([], Err(RuntimeError(Automator.NoDriverMessage)))
    ensures dryRun ==> NoPunchPress(r.trace)
    ensures dryRun && driverPresent && d.target.Done? ==> r == Run([], Ok(()))
    ensures driverPresent && d.target.Done? && !dryRun ==>
      |r.trace| > 0 && r.trace[0] == Click(PunchButton(Automator.PunchSelector(buttonType)))
    ensures r.outcome.Ok? <==> driverPresent && d.target.Done? && (dryRun || d.click.Done?)
    ensures driverPresent && r.outcome.Err? ==> |r.trace| > 0 && r.trace[|r.trace| - 1].Screenshot?
    ensures driverPresent && r.outcome.Err? && d.shot.Done? ==>
      r.trace[|r.trace| - 1] == Screenshot(PunchScreenshot(buttonType, r.outcome.error))
    ensures driverPresent && r.outcome.Err? && d.shot.Raised? ==> r.outcome.error == d.shot.e
    ensures driverPresent && d.target.Raised? ==>
      r == Run([Screenshot(PunchScreenshot(buttonType, d.target.e))],
               Err(if d.shot.Raised? then d.shot.e else d.target.e))
    ensures forall i :: 0 <= i < |r.trace| ==> !r.trace[i].ScriptClick? && !r.trace[i].AcceptAlert?
    ensures forall i :: 0 <= i < |r.trace| && PressesPunch(r.trace[i]) ==>
      r.trace[i].target == PunchButton(Automator.PunchSelector(buttonType))
  {
    var t := PunchButton(Automator.PunchSelector(buttonType));
    if !driverPresent then Run([], Err(RuntimeError(Automator.NoDriverMessage)))
    else if d.target.Raised? then
      Run([Screenshot(PunchScreenshot(buttonType, d.target.e))], Err(Automator.Reraised(d.target.e, d.shot, Done)))
    else if dryRun then Run([], Ok(()))
    else match d.click
      case Done => Run([Click(t)], Ok(()))
      case Raised(e) => Run([Click(t), Screenshot(PunchScreenshot(buttonType, e))], Err(Automator.Reraised(e, d.shot, Done)))
  }

  function ClockIn(driverPresent: bool, dryRun: bool, d: PunchDriver): (r: Run)
    ensures forall i :: 0 <= i < |r.trace| && PressesPunch(r.trace[i]) ==> r.trace[i].target == PunchButton(".record-clock-in")
    ensures dryRun ==> NoPunchPress(r.trace)
  {
    Punch(driverPresent, dryRun, "clock-in", d)
  }

  function ClockOut(driverPresent: bool, dryRun: bool, d: PunchDriver): (r: Run)
    ensures forall i :: 0 <= i < |r.trace| && PressesPunch(r.trace[i]) ==> r.trace[i].target == PunchButton(".record-clock-out")
    ensures dryRun ==> NoPunchPress(r.trace)
  {
    Punch(driverPresent, dryRun, "clock-out", d)
  }
}
