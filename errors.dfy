/**
 * `ScriptError`, the scripts' one reported failure, and the messages a
 * failed request produces.
 */
module Errors {
  import opened Wrappers
  import opened Strings

  /** A reported failure: the process exits with `code` after printing `message`. */
  datatype ScriptError = ScriptError(code: int, message: string)

  /**
   * `ScriptError(message, code)`: a missing or zero code becomes 1, so the
   * exit status never signals success, and the message is prefixed with
   * the code in parentheses.
   */
  function NewScriptError(message: string, code: Option<int>): (e: ScriptError)
    ensures e.code != 0
    ensures code.Some? && code.value != 0 ==> e.code == code.value
    ensures code.None? || code.value == 0 ==> e.code == 1
    ensures e.message == "(" + DecimalString(e.code) + ") " + message
  {
    var c := if code.Some? && code.value != 0 then code.value else 1;
    ScriptError(c, "(" + DecimalString(c) + ") " + message)
  }

  /** The ways a request can fail, as the HTTP client reports them. */
  datatype FetchFailure =
    | HttpError(detail: string)   // a non-2xx status; `detail` is the client's own text
    | ConnectionError
    | Timeout

  /**
   * The message `request_data` puts in its `ScriptError`, as the code has
   * it. For a connection error the second half of the message is a plain
   * string literal, not an f-string, so it carries the text `{end_url}`
   * instead of the URL: it is the intended message for a URL that is
   * literally `{end_url}`. The other failures read as intended.
   */
  function FailureMessageAsWritten(failure: FetchFailure, url: string): (m: string)
    ensures !failure.ConnectionError? ==> m == FailureMessage(failure, url)
    ensures failure.ConnectionError? ==> m == FailureMessage(failure, "{end_url}")
  {
    match failure
    case HttpError(detail) => "FAILED to retrieve data due to HTTP " + detail
    case ConnectionError => "FAILED to retrieve data due to ConnectionError for url: {end_url}"
    case Timeout => "FAILED to retrieve data due to Timeout for url: " + url
  }

  /**
   * As written, a connection failure reports the same text whatever URL
   * failed: the failures of two different endpoints cannot be told apart.
   */
  lemma ConnectionErrorOmitsUrl(url1: string, url2: string)
    ensures FailureMessageAsWritten(ConnectionError, url1) == FailureMessageAsWritten(ConnectionError, url2)
  {
  }

  /**
   * The message as written and the intended one agree exactly when the
   * failure is not a connection error or the URL happens to be `{end_url}`.
   */
  lemma AsWrittenAgreesIff(failure: FetchFailure, url: string)
    ensures FailureMessageAsWritten(failure, url) == FailureMessage(failure, url)
            <==> !failure.ConnectionError? || url == "{end_url}"
  {
    if failure.ConnectionError? {
      var lead := "FAILED to retrieve data due to ConnectionError for url: ";
      assert FailureMessageAsWritten(failure, url) == lead + "{end_url}";
      assert FailureMessage(failure, url) == lead + url;
      assert (lead + url)[|lead|..] == url;
      assert (lead + "{end_url}")[|lead|..] == "{end_url}";
    }
  }

  /** The message as evidently intended: both connection and timeout failures name the URL. */
  function FailureMessage(failure: FetchFailure, url: string): (m: string)
    ensures failure.HttpError? ==> m == "FAILED to retrieve data due to HTTP " + failure.detail
  {
    match failure
    case HttpError(detail) => "FAILED to retrieve data due to HTTP " + detail
    case ConnectionError => "FAILED to retrieve data due to ConnectionError for url: " + url
    case Timeout => "FAILED to retrieve data due to Timeout for url: " + url
  }

  /**
   * With the intended message, a connection or timeout failure names the
   * URL at the end of the message, so failures of different URLs read
   * differently.
   */
  lemma FailureMessageNamesUrl(failure: FetchFailure, url1: string, url2: string)
    requires !failure.HttpError?
    ensures var m := FailureMessage(failure, url1);
            |url1| <= |m| && m[|m| - |url1|..] == url1
    ensures url1 != url2 ==> FailureMessage(failure, url1) != FailureMessage(failure, url2)
  {
    var m1, m2 := FailureMessage(failure, url1), FailureMessage(failure, url2);
    var lead := m1[..|m1| - |url1|];
    assert m1 == lead + url1 && m2 == lead + url2;
    assert m1[|lead|..] == url1 && m2[|lead|..] == url2;
  }
}
