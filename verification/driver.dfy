/** What the browser automation does to the portal page, as a trace of
    actions, and how each driver call ended, as an input. Shared by the
    current automator and the legacy one. */
module Driver {
  import opened Base

  /** How one driver call (a wait, a lookup, a click) ended. */
  datatype Step = Done | Raised(e: Error)

  /** The two things on the page that get clicked. */
  datatype Target = LoginButton | PunchButton(css: string)

  /** An action issued to the browser, in order. */
  datatype Action =
    | Launch(headless: bool)
    | Navigate(url: string)
    | Fill(field: string, value: Json)
    | Click(target: Target)
    | ScriptClick(target: Target)
    | AcceptAlert
    | Screenshot(path: string)
    | SavePageSource(path: string)
    | Quit

  /** An action that presses a punch button, directly or through a script. */
  predicate PressesPunch(a: Action) {
    (a.Click? || a.ScriptClick?) && a.target.PunchButton?
  }

  /** A trace in which no punch button is ever pressed. */
  predicate NoPunchPress(t: seq<Action>) {
    forall i :: 0 <= i < |t| ==> !PressesPunch(t[i])
  }

  /** A run of browser code: the actions it issued and how it ended. */
  datatype Run = Run(trace: seq<Action>, outcome: Result<()>)

  lemma NoPunchPressAppend(a: seq<Action>, b: seq<Action>)
    requires NoPunchPress(a) && NoPunchPress(b)
    ensures NoPunchPress(a + b)
  {
  }

  /** A prefix of a trace that presses no punch button presses none
      either. */
  lemma PrefixNoPunch(a: seq<Action>, b: seq<Action>)
    requires a <= b && NoPunchPress(b)
    ensures NoPunchPress(a)
  {
    forall i | 0 <= i < |a|
      ensures !PressesPunch(a[i])
    {
      assert a[i] == b[i];
    }
  }

  /** Running a second piece of code only if the first succeeded. */
  function Then(first: Run, second: Run): (r: Run)
    ensures first.outcome.Err? ==> r == first
    ensures first.outcome.Ok? ==> r == Run(first.trace + second.trace, second.outcome)
  {
    if first.outcome.Err? then first else Run(first.trace + second.trace, second.outcome)
  }

  /** `with TouchOnTimeAutomator(headless) as bot: body`. If the browser
      starts, the body runs and the browser is quit on every exit path, with
      the body's outcome passed on unchanged; if it does not start, the
      error propagates and no quit is issued, so a browser that was already
      started before the setup raised is left running. */
  function Scoped(headless: bool, setup: Step, body: Run): (r: Run)
    ensures |r.trace| > 0 && r.trace[0] == Launch(headless)
    ensures setup.Done? ==> r == Run([Launch(headless)] + body.trace + [Quit], body.outcome)
    ensures setup.Raised? ==> r == Run([Launch(headless)], Err(setup.e))
  {
    match setup
    case Raised(e) => Run([Launch(headless)], Err(e))
    case Done => Run([Launch(headless)] + body.trace + [Quit], body.outcome)
  }

  /** A started browser is quit exactly once, as the last action, whether the
      body succeeded or raised. */
  lemma ScopedAlwaysQuits(headless: bool, body: Run)
    requires forall i :: 0 <= i < |body.trace| ==> body.trace[i] != Quit
    ensures var r := Scoped(headless, Done, body);
      r.trace[|r.trace| - 1] == Quit && (forall i :: 0 <= i < |r.trace| - 1 ==> r.trace[i] != Quit)
  {
    var r := Scoped(headless, Done, body);
    forall i | 0 <= i < |r.trace| - 1
      ensures r.trace[i] != Quit
    {
      if i > 0 {
        assert r.trace[i] == body.trace[i - 1];
      }
    }
  }
}
