/** The vault CLI wrapper (src/core/bitwarden.py). Each call spawns one child
    process; the model takes that process's outcome as an input and states
    how the wrapper reads it. JSON decoding is a parameter. */
module Bitwarden {
  import opened Base
  import opened Text

  /** What running the vault binary produced: it could not be started at all
      (FileNotFoundError and the like), or it exited with a code and output. */
  datatype ProcOutcome =
    | LaunchFailed(reason: string)
    | Exited(code: int, stdout: string, stderr: string)

  /** `json.loads`: None when the text is not JSON. */
  type Parser = string -> Option<Json>

  /** The wrapper's only state: the session key it holds, if any. */
  datatype Client = Client(sessionKey: Option<string>)

  /** The command line and environment handed to one child process. */
  datatype Invocation = Invocation(argv: seq<string>, env: map<string, string>)

  const BinaryPath := "bin/bw_native"
  const SessionVar := "BW_SESSION"
  const UnlockFailedPrefix := "ロック解除に失敗しました: "
  const FetchFailedPrefix := "Bitwardenからの取得に失敗しました: "
  const ParseFailedMessage := "Bitwarden出力のパースエラー"
  const MissingFieldsMessage := "ユーザー名またはパスワードが見つかりません。"

  /** The child's environment: the parent's, plus the session key when the
      client holds a non-empty one. */
  function ChildEnv(c: Client, ambient: map<string, string>): (env: map<string, string>)
    ensures SessionVar in env <==> TruthyText(c.sessionKey) || SessionVar in ambient
    ensures TruthyText(c.sessionKey) ==> env[SessionVar] == c.sessionKey.value
    ensures forall k :: k in ambient && k != SessionVar ==> k in env && env[k] == ambient[k]
    ensures env.Keys <= ambient.Keys + {SessionVar}
    ensures !TruthyText(c.sessionKey) ==> env == ambient
  {
    if TruthyText(c.sessionKey) then ambient[SessionVar := c.sessionKey.value] else ambient
  }

  /** The constructor's advisory check: it warns exactly when the children
      that use the client's environment will see no session key. */
  function WarnsNoSession(c: Client, ambient: map<string, string>): (warns: bool)
    ensures warns <==> SessionVar !in ChildEnv(c, ambient)
  {
    !TruthyText(c.sessionKey) && SessionVar !in ambient
  }

  /** `bw status`, run with the client's environment: it carries a session
      key unless the constructor warned, and the client's own key when it
      holds one. */
  function StatusCall(c: Client, ambient: map<string, string>): (r: Invocation)
    ensures SessionVar in r.env <==> !WarnsNoSession(c, ambient)
    ensures TruthyText(c.sessionKey) ==> r.env[SessionVar] == c.sessionKey.value
  {
    Invocation([BinaryPath, "status"], ChildEnv(c, ambient))
  }

  /** `bw unlock --raw <password>`: the master password travels as the last
      command-line argument, and the child gets the environment a client
      without a key would pass, whatever key this client holds. */
  function UnlockCall(masterPassword: string, ambient: map<string, string>): (r: Invocation)
    ensures |r.argv| == 4 && r.argv[3] == masterPassword
    ensures r.env == ChildEnv(Client(None), ambient)
  {
    Invocation([BinaryPath, "unlock", "--raw", masterPassword], ambient)
  }

  /** `bw get item <name>`: the name is the last argument, and the session
      key is passed as for the status call. */
  function GetItemCall(c: Client, itemName: string, ambient: map<string, string>): (r: Invocation)
    ensures |r.argv| == 4 && r.argv[3] == itemName
    ensures r.env == StatusCall(c, ambient).env
  {
    Invocation([BinaryPath, "get", "item", itemName], ChildEnv(c, ambient))
  }

  /** `bw sync`: the session key is passed as for the status call. */
  function SyncCall(c: Client, ambient: map<string, string>): (r: Invocation)
    ensures r.argv == [BinaryPath, "sync"]
    ensures r.env == StatusCall(c, ambient).env
  {
    Invocation([BinaryPath, "sync"], ChildEnv(c, ambient))
  }

  /** `get_status()`: the decoded `status` field, "unknown" when the field is
      missing, and "error" for every failure on the way. It never raises. */
  function GetStatus(o: ProcOutcome, parse: Parser): (status: Json)
    ensures status == JStr("error") <==>
      (|| !o.Exited? || o.code != 0 || parse(o.stdout).None? || !parse(o.stdout).value.JObj?
       || ("status" in parse(o.stdout).value.fields && parse(o.stdout).value.fields["status"] == JStr("error")))
    ensures o.Exited? && o.code == 0 && parse(o.stdout).Some? && parse(o.stdout).value.JObj? ==>
      var fields := parse(o.stdout).value.fields;
      status == (if "status" in fields then fields["status"] else JStr("unknown"))
  {
    match o
    case LaunchFailed(_) => JStr("error")
    case Exited(code, out, _) =>
      if code != 0 then JStr("error")
      else match parse(out)
        case None => JStr("error")
        case Some(data) =>
          match Get(data, "status", JStr("unknown"))
          case Ok(s) => s
          case Err(_) => JStr("error")
  }

  /** Result of `unlock`: the client afterwards and the returned key. */
  datatype Unlocked = Unlocked(client: Client, key: Result<string>)

  /** `unlock(master_password)`: on exit 0 the stripped stdout becomes the
      session key, both stored and returned. A non-zero exit raises
      RuntimeError quoting stderr; a process that cannot start raises its
      own error, since only a non-zero exit is caught. */
  function Unlock(c: Client, o: ProcOutcome): (r: Unlocked)
    ensures r.key.Ok? <==> o.Exited? && o.code == 0
    ensures r.key.Ok? ==> r.key.value == Strip(o.stdout) && r.client == Client(Some(r.key.value))
    ensures r.key.Ok? ==> Trimmed(r.key.value)
    ensures r.key.Err? ==> r.client == c
    ensures o.Exited? && o.code != 0 ==> r.key == Err(RuntimeError(UnlockFailedPrefix + o.stderr))
    ensures o.LaunchFailed? ==> r.key == Err(OSError(o.reason))
  {
    match o
    case LaunchFailed(reason) => Unlocked(c, Err(OSError(reason)))
    case Exited(code, out, err) =>
      if code != 0 then Unlocked(c, Err(RuntimeError(UnlockFailedPrefix + err)))
      else
        var key := Strip(out);
        Unlocked(Client(Some(key)), Ok(key))
  }

  /** The credential record `get_login_item` builds. */
  function CredRecord(username: Json, password: Json): Json {
    JObj(map["username" := username, "password" := password])
  }

  /** The `login` object of a decoded item, or the JSON default `{}`. */
  function LoginOf(item: Json): Result<Json> {
    Get(item, "login", JObj(map[]))
  }

  /** Pulling the two login fields out of a decoded item. */
  function ExtractLogin(item: Json): (r: Result<Json>)
    ensures r.Ok? <==>
      (&& item.JObj?
       && LoginOf(item).value.JObj?
       && "username" in LoginOf(item).value.fields && Truthy(LoginOf(item).value.fields["username"])
       && "password" in LoginOf(item).value.fields && Truthy(LoginOf(item).value.fields["password"]))
    ensures r.Ok? ==>
      r.value == CredRecord(LoginOf(item).value.fields["username"], LoginOf(item).value.fields["password"])
    ensures r.Err? && item.JObj? && LoginOf(item).value.JObj? ==> r == Err(ValueError(MissingFieldsMessage))
    ensures r.Err? ==> r.error.ValueError? || r.error.AttributeError?
  {
    var login :- Get(item, "login", JObj(map[]));
    var username :- Get(login, "username", JNull);
    var password :- Get(login, "password", JNull);
    if !Truthy(username) || !Truthy(password) then Err(ValueError(MissingFieldsMessage))
    else Ok(CredRecord(username, password))
  }

  /** `get_login_item(name)`: a non-zero exit raises RuntimeError with the
      stripped stderr; undecodable stdout raises RuntimeError; otherwise the
      login fields are extracted, and every other failure propagates as is. */
  function GetLoginItem(o: ProcOutcome, parse: Parser): (r: Result<Json>)
    ensures r.Ok? ==> o.Exited? && o.code == 0 && parse(o.stdout).Some?
    ensures o.Exited? && o.code == 0 && parse(o.stdout).Some? ==> r == ExtractLogin(parse(o.stdout).value)
    ensures o.Exited? && o.code != 0 ==> r == Err(RuntimeError(FetchFailedPrefix + Strip(o.stderr)))
    ensures o.Exited? && o.code == 0 && parse(o.stdout).None? ==> r == Err(RuntimeError(ParseFailedMessage))
    ensures o.LaunchFailed? ==> r == Err(OSError(o.reason))
  {
    match o
    case LaunchFailed(reason) => Err(OSError(reason))
    case Exited(code, out, err) =>
      if code != 0 then Err(RuntimeError(FetchFailedPrefix + Strip(err)))
      else match parse(out)
        case None => Err(RuntimeError(ParseFailedMessage))
        case Some(data) => ExtractLogin(data)
  }

  /** Both fields of a successfully fetched record are present and truthy. */
  lemma FetchedRecordIsComplete(o: ProcOutcome, parse: Parser)
    requires GetLoginItem(o, parse).Ok?
    ensures var r := GetLoginItem(o, parse).value;
      && r.JObj? && r.fields.Keys == {"username", "password"}
      && Truthy(r.fields["username"]) && Truthy(r.fields["password"])
      && Truthy(r)
  {
    var r := GetLoginItem(o, parse).value;
    assert "username" in r.fields;
  }

  /** How `sync()` ended when it returned. */
  datatype SyncLog = Synced | SyncFailedButContinued

  /** `sync()`: a non-zero exit is logged and the call returns normally; only
      a process that cannot start at all propagates. */
  function Sync(o: ProcOutcome): (r: Result<SyncLog>)
    ensures r.Err? <==> o.LaunchFailed?
    ensures o.Exited? ==> r == Ok(if o.code == 0 then Synced else SyncFailedButContinued)
    ensures o.LaunchFailed? ==> r == Err(OSError(o.reason))
  {
    match o
    case LaunchFailed(reason) => Err(OSError(reason))
    case Exited(code, _, _) => Ok(if code == 0 then Synced else SyncFailedButContinued)
  }
}
