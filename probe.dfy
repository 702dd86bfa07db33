/**
 * Classification of one probe. The network calls are inputs: what
 * `requests.get` did for an HTTP target, what `socket.create_connection`
 * did for port 22 of an SSH host, and what `json.loads` made of the body.
 * Each classifier turns that outcome into a `(code, message)` pair and
 * never fails.
 */
module Probe {
  import opened Text

  /** The pair `(code, message)` that `check_api` and `check_ssh` return. */
  datatype CheckResult = CheckResult(code: int, message: string)

  /** What `json.loads(response.text)` does: returns, raises
      `json.JSONDecodeError`, or raises some other exception (caught by the
      outer `except Exception`). */
  datatype JsonOutcome = JsonValid | JsonDecodeError | JsonOtherError(detail: string)

  /** What `requests.get(url, timeout=...)` does: raises
      `requests.exceptions.Timeout`, raises another exception (whose text is
      `detail`), or answers with a status code and a body. */
  datatype HttpOutcome =
    | HttpTimeout
    | HttpFailure(detail: string)
    | HttpResponse(status: int, text: string, json: JsonOutcome)

  /** What `socket.create_connection((host, 22), timeout=...)` does: connects,
      raises `socket.timeout`/`TimeoutError`, or raises another exception. */
  datatype SshOutcome = SshConnected | SshTimeout | SshFailure(detail: string)

  const ApiOk := CheckResult(200, "OK")
  const SshOk := CheckResult(200, "SSH OK")

  /** The body passes the content checks of a 200 answer: with `checkJson`
      it must parse as JSON; otherwise, with `checkText`, it must not
      contain "500". */
  predicate ContentAccepted(text: string, json: JsonOutcome, checkJson: bool, checkText: bool)
  {
    if checkJson then json.JsonValid? else !(checkText && Contains(text, "500"))
  }

  /** `check_api(url, checkJson, checkText)` on the outcome of the GET. */
  function CheckApi(outcome: HttpOutcome, checkJson: bool, checkText: bool, defaultTimeoutMs: int): (r: CheckResult)
    // OK exactly when the server answered 200 and the body passed its checks
    ensures r == ApiOk <==>
      outcome.HttpResponse? && outcome.status == 200 &&
      ContentAccepted(outcome.text, outcome.json, checkJson, checkText)
    // an answer always carries its HTTP status as the code, even when a content check failed;
    // the only exception is a JSON parser that fails other than by a decode error
    ensures outcome.HttpResponse? && !(outcome.status == 200 && checkJson && outcome.json.JsonOtherError?)
      ==> r.code == outcome.status
    ensures outcome.HttpResponse? && outcome.status != 200 ==>
      r.message == "Unexpected status: " + IntToString(outcome.status)
    ensures outcome.HttpResponse? && outcome.status == 200 && checkJson && outcome.json.JsonDecodeError? ==>
      r == CheckResult(200, "Invalid JSON response: 200")
    ensures outcome.HttpResponse? && outcome.status == 200 && !checkJson && checkText && Contains(outcome.text, "500") ==>
      r == CheckResult(200, "500 found in response text: " + outcome.text)
    // transport failures are encoded, never raised
    ensures outcome.HttpTimeout? ==> r == CheckResult(defaultTimeoutMs, "Timeout")
    ensures outcome.HttpFailure? ==> r == CheckResult(-1, "Error: " + outcome.detail)
    ensures outcome.HttpResponse? && outcome.status == 200 && checkJson && outcome.json.JsonOtherError? ==>
      r == CheckResult(-1, "Error: " + outcome.json.detail)
  {
    match outcome
    case HttpTimeout => CheckResult(defaultTimeoutMs, "Timeout")
    case HttpFailure(e) => CheckResult(-1, "Error: " + e)
    case HttpResponse(status, text, json) =>
      if status == 200 then
        if checkJson then
          match json
          case JsonValid => CheckResult(200, "OK")
          case JsonDecodeError => CheckResult(status, "Invalid JSON response: " + IntToString(status))
          case JsonOtherError(e) => CheckResult(-1, "Error: " + e)
        else if checkText && Contains(text, "500") then
          CheckResult(status, "500 found in response text: " + text)
        else
          CheckResult(200, "OK")
      else
        CheckResult(status, "Unexpected status: " + IntToString(status))
  }

  /** With `checkJson` set, `checkText` makes no difference. */
  lemma JsonCheckTakesPrecedence(outcome: HttpOutcome, checkText: bool, defaultTimeoutMs: int)
    ensures CheckApi(outcome, true, checkText, defaultTimeoutMs) == CheckApi(outcome, true, !checkText, defaultTimeoutMs)
    ensures outcome.HttpResponse? && outcome.json.JsonValid? && outcome.status == 200 ==>
      CheckApi(outcome, true, checkText, defaultTimeoutMs) == ApiOk
  {
  }

  /** `check_ssh(host, timeout_ms)` on the outcome of the connection attempt. */
  function CheckSsh(outcome: SshOutcome, timeoutMs: int): (r: CheckResult)
    // up exactly when port 22 accepted the connection
    ensures r == SshOk <==> outcome.SshConnected?
    ensures r.message == "SSH OK" <==> outcome.SshConnected?
    ensures outcome.SshTimeout? ==> r == CheckResult(timeoutMs, "Timeout")
    ensures outcome.SshFailure? ==> r == CheckResult(-1, "Port 22 error: " + outcome.detail)
  {
    match outcome
    case SshConnected => CheckResult(200, "SSH OK")
    case SshTimeout => CheckResult(timeoutMs, "Timeout")
    case SshFailure(e) => CheckResult(-1, "Port 22 error: " + e)
  }
}
