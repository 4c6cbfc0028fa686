/** Process lifecycle decisions (src/utils/processManager.js): what
    `gracefulShutdown` logs and which code it exits with, the fatal-error
    report, the routing of process events installed by
    `setupProcessHandlers`, and the `validateNodeVersion` gate. Terminating
    the process is represented by the exit code in the result. */
module ProcessManager {
  import opened Prelude
  import Logger

  /** A JavaScript argument that has a default: left out (`undefined`, the
      default applies), passed as `null` (no default), or given. */
  datatype MessageArg = Omitted | Null | Given(text: string)

  /** The logger calls made before terminating, and the exit code. */
  datatype Exit = Exit(log: seq<Logger.LogCall>, code: int)

  /** A thrown or rejected value: an `Error` object, or any other value
      represented by its `String(...)` form. */
  datatype Thrown = ErrorObject(message: string) | NonError(text: string)

  const DefaultShutdownMessage: string := "Shutting down..."
  const DefaultMinVersion: string := "16.0.0"

  /** `gracefulShutdown(message, code)`: a truthy message is logged with
      success styling for code 0 and error styling otherwise; then the
      process exits with `code` (default 0). */
  function GracefulShutdown(message: MessageArg, code: Option<int>): (r: Exit)
    ensures r.code == (if code.Some? then code.value else 0)
    ensures |r.log| <= 1
    ensures r.log == [] <==> message.Null? || message == Given("")
    ensures |r.log| == 1 ==> (r.log[0].Success? <==> r.code == 0)
    ensures |r.log| == 1 ==> (r.log[0].Error? <==> r.code != 0)
    ensures |r.log| == 1 ==> r.log[0].message == (if message.Given? then message.text else DefaultShutdownMessage)
  {
    var exitCode := if code.Some? then code.value else 0;
    var text := match message
      case Omitted => DefaultShutdownMessage
      case Null => ""
      case Given(t) => t;
    if text != "" then
      Exit([if exitCode == 0 then Logger.Success(text) else Logger.Error(text)], exitCode)
    else
      Exit([], exitCode)
  }

  /** How the logger prints a non-string argument: `JSON.stringify` of an
      `Error` with no own enumerable properties is `{}`; a string prints as is. */
  function Show(t: Thrown): string {
    match t
    case ErrorObject(_) => "{}"
    case NonError(s) => s
  }

  /** `handleFatalError(error, source)`: one error line naming the source and
      showing the error (the logger joins its two arguments with a space),
      then exit code 1 (after the flush delay). */
  function HandleFatalError(error: Thrown, source: string): (r: Exit)
    ensures r.code == 1
    ensures |r.log| == 1 && r.log[0].Error?
    ensures Contains(r.log[0].message, "(" + source + ")")
    ensures r.log[0].message == "Fatal Error (" + source + "):" + " " + Show(error)
  {
    var msg := "Fatal Error (" + source + "):" + " " + Show(error);
    assert msg == "Fatal Error " + ("(" + source + ")") + (":" + " " + Show(error));
    ContainsMiddle("Fatal Error ", "(" + source + ")", ":" + " " + Show(error));
    Exit([Logger.Error(msg)], 1)
  }

  /** The process events `setupProcessHandlers` listens to. */
  datatype ProcessEvent =
    | UncaughtException(error: Thrown)
    | UnhandledRejection(reason: Thrown)
    | SigInt
    | SigTerm

  /** `reason instanceof Error ? reason : new Error(String(reason))`. */
  function AsError(reason: Thrown): (r: Thrown)
    ensures r.ErrorObject?
    ensures reason.ErrorObject? ==> r == reason
    ensures reason.NonError? ==> r.message == reason.text
  {
    match reason
    case ErrorObject(_) => reason
    case NonError(s) => ErrorObject(s)
  }

  /** The handler installed for each event. */
  function OnEvent(e: ProcessEvent): (r: Exit)
    ensures (e.SigInt? || e.SigTerm?) ==> r.code == 0 && |r.log| == 1 && r.log[0].Success?
    ensures (e.UncaughtException? || e.UnhandledRejection?) ==> r.code == 1 && |r.log| == 1 && r.log[0].Error?
    ensures e.SigInt? ==> r.log[0].message == "Process interrupted (SIGINT)"
    ensures e.SigTerm? ==> r.log[0].message == "Process terminated (SIGTERM)"
    ensures e.UncaughtException? ==> r.log[0].message == "Fatal Error (" + "uncaughtException" + "):" + " " + Show(e.error)
    ensures e.UnhandledRejection? ==> r.log[0].message == "Fatal Error (" + "unhandledRejection" + "):" + " " + Show(AsError(e.reason))
  {
    match e
    case UncaughtException(err) => HandleFatalError(err, "uncaughtException")
    case UnhandledRejection(reason) => HandleFatalError(AsError(reason), "unhandledRejection")
    case SigInt => GracefulShutdown(Given("Process interrupted (SIGINT)"), None)
    case SigTerm => GracefulShutdown(Given("Process terminated (SIGTERM)"), None)
  }

  /** A rejection with a non-Error reason is reported exactly as a rejection
      with the Error that wraps it. */
  lemma RejectionIsWrapped(text: string)
    ensures OnEvent(UnhandledRejection(NonError(text))) == OnEvent(UnhandledRejection(ErrorObject(text)))
  {
  }

  /** The `exit` listener: one line naming the code, success styling for 0. */
  function ExitListener(code: int): (r: Logger.LogCall)
    ensures r.Success? <==> code == 0
    ensures r.Normal? <==> code != 0
    ensures r.message == "Process exited with code " + IntToString(code)
  {
    var message := "Process exited with code " + IntToString(code);
    if code == 0 then Logger.Success(message) else Logger.Normal(message)
  }

  /** `s.split('.')[0]`: everything before the first dot. */
  function BeforeFirstDot(s: string): (r: string)
    ensures r <= s && '.' !in r
    ensures |r| < |s| ==> s[|r|] == '.'
  {
    if s == [] || s[0] == '.' then [] else [s[0]] + BeforeFirstDot(s[1..])
  }

  /** `Number(s.split('.')[0])`: the major component, or NaN (`None`). */
  function Major(version: string): Option<nat> {
    ToNumber(BeforeFirstDot(version))
  }

  /** `process.version.slice(1)`: the version without its leading `v`. */
  function DropFirst(s: string): (r: string)
    ensures |s| >= 1 ==> s == [s[0]] + r
    ensures |s| == 0 ==> r == ""
  {
    if |s| >= 1 then s[1..] else ""
  }

  /** The result of `validateNodeVersion`: the verdict and what it logged. */
  datatype VersionCheck = VersionCheck(ok: bool, log: seq<Logger.LogCall>)

  /** `validateNodeVersion(minVersion)` run under Node version string
      `nodeVersion` (`process.version`). It fails exactly when both majors are
      numbers and the current one is smaller (NaN compares false), and then
      logs one error naming both versions. */
  function ValidateNodeVersion(nodeVersion: string, minVersion: string): (r: VersionCheck)
    ensures !r.ok <==>
      var cur, min := Major(DropFirst(nodeVersion)), Major(minVersion);
      cur.Some? && min.Some? && cur.value < min.value
    ensures r.ok ==> r.log == []
    ensures !r.ok ==> |r.log| == 1 && r.log[0].Error?
    ensures !r.ok ==> Contains(r.log[0].message, minVersion) && Contains(r.log[0].message, DropFirst(nodeVersion))
  {
    var currentVersion := DropFirst(nodeVersion);
    var currentMajor, minMajor := Major(currentVersion), Major(minVersion);
    if currentMajor.Some? && minMajor.Some? && currentMajor.value < minMajor.value then
      var message := "Node.js version " + minVersion + " or higher is required. Current version: " + currentVersion;
      assert message == "Node.js version " + minVersion + (" or higher is required. Current version: " + currentVersion);
      ContainsMiddle("Node.js version ", minVersion, " or higher is required. Current version: " + currentVersion);
      assert message == "Node.js version " + minVersion + " or higher is required. Current version: " + currentVersion + "";
      ContainsMiddle("Node.js version " + minVersion + " or higher is required. Current version: ", currentVersion, "");
      VersionCheck(false, [Logger.Error(message)])
    else
      VersionCheck(true, [])
  }

  /** Everything from the first dot on does not change the major component. */
  lemma {:induction false} BeforeFirstDotOfPrefix(s: string, rest: string)
    requires '.' !in s
    requires rest == [] || rest[0] == '.'
    ensures BeforeFirstDot(s + rest) == s
  {
    if s != [] {
      assert (s + rest)[0] == s[0];
      assert (s + rest)[1..] == s[1..] + rest;
      BeforeFirstDotOfPrefix(s[1..], rest);
    }
  }

  /** The major component of a rendered number followed by dotted parts is
      that number. */
  lemma MajorOfRendered(a: nat, rest: string)
    requires rest == [] || rest[0] == '.'
    ensures Major(NatToString(a) + rest) == Some(a)
  {
    var na := NatToString(a);
    assert '.' !in na by {
      assert forall i :: 0 <= i < |na| ==> IsDigit(na[i]);
    }
    BeforeFirstDotOfPrefix(na, rest);
    ToNumberNatToString(a);
  }

  /** The current major of `v<a>...` is `a`. */
  lemma CurrentMajor(a: nat, rest: string)
    requires rest == [] || rest[0] == '.'
    ensures Major(DropFirst("v" + NatToString(a) + rest)) == Some(a)
  {
    var tail := NatToString(a) + rest;
    var version := "v" + NatToString(a) + rest;
    assert version == "v" + tail;
    AppendCancel("v", tail, [version[0]], DropFirst(version));
    MajorOfRendered(a, rest);
  }

  /** Only the major component counts: for `v<a>...` against `<b>...` the
      check passes exactly when a >= b, whatever follows the first dot. */
  lemma MajorOnly(a: nat, restA: string, b: nat, restB: string)
    requires restA == [] || restA[0] == '.'
    requires restB == [] || restB[0] == '.'
    ensures ValidateNodeVersion("v" + NatToString(a) + restA, NatToString(b) + restB).ok <==> a >= b
  {
    CurrentMajor(a, restA);
    MajorOfRendered(b, restB);
  }

  /** The default gate accepts Node 16 and later and rejects earlier majors. */
  lemma DefaultGate(a: nat, rest: string)
    requires rest == [] || rest[0] == '.'
    ensures ValidateNodeVersion("v" + NatToString(a) + rest, DefaultMinVersion).ok <==> a >= 16
  {
    assert DefaultMinVersion == NatToString(16) + ".0.0";
    MajorOnly(a, rest, 16, ".0.0");
  }
}
