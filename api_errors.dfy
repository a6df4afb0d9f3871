/** handleApiError: the message thrown for a failed API response. */
module ApiErrors {
  import opened Wrappers
  import opened YouTubeTypes

  /** The prefix put before a message the API supplies in `error.message`. */
  const ApiErrorPrefix: string := "YouTube API Error: "

  /** The decimal digit for `d`. */
  function DigitChar(d: nat): (c: char)
    requires d < 10
    ensures '0' <= c <= '9'
  {
    ('0' as int + d) as char
  }

  /** The number a string of decimal digits denotes, most significant digit first. */
  function DigitsValue(s: string): nat
    requires forall i :: 0 <= i < |s| ==> '0' <= s[i] <= '9'
  {
    if s == [] then 0 else 10 * DigitsValue(s[..|s| - 1]) + (s[|s| - 1] as int - '0' as int)
  }

  /**
    How a template literal renders a status code: the decimal digits that denote
    it, with no leading zero.
   */
  function DecimalString(n: nat): (s: string)
    ensures |s| >= 1
    ensures forall i :: 0 <= i < |s| ==> '0' <= s[i] <= '9'
    ensures |s| > 1 ==> s[0] != '0'
    ensures DigitsValue(s) == n
  {
    if n < 10 then [DigitChar(n)]
    else
      var init := DecimalString(n / 10);
      var s := init + [DigitChar(n % 10)];
      assert s[..|s| - 1] == init;
      s
  }

  /** The message used when the error body cannot be decoded. */
  function StatusMessage<T>(response: Response<T>, defaultMessage: string): string
  {
    defaultMessage + " (Status: " + DecimalString(response.status) + " " + response.statusText + ")"
  }

  /** What handleApiError throws for `response`, or None when it returns normally. */
  function ApiFailure<T>(response: Response<T>, defaultMessage: string): Option<string>
  {
    if response.ok then None
    else match response.body
      case Json(message, _, _) =>
        if Truthy(message) then Some(ApiErrorPrefix + message.value) else Some(defaultMessage)
      case Unparseable(_) => Some(StatusMessage(response, defaultMessage))
  }

  /**
    handleApiError: returns normally exactly when the response is ok; otherwise it
    throws (here: returns the message of the Error it throws) the API's own message
    when the body decodes with a non-empty `error.message`, the default message when
    it decodes without one, and the default message with the status when it does
    not decode.
   */
  method HandleApiError<T>(response: Response<T>, defaultMessage: string) returns (failure: Option<string>)
    ensures failure.None? <==> response.ok
    ensures !response.ok && response.body.Json? && Truthy(response.body.errorMessage) ==>
              failure == Some(ApiErrorPrefix + response.body.errorMessage.value)
    ensures !response.ok && response.body.Json? && !Truthy(response.body.errorMessage) ==>
              failure == Some(defaultMessage)
    ensures !response.ok && response.body.Unparseable? ==>
              failure == Some(defaultMessage + " (Status: " + DecimalString(response.status) + " " + response.statusText + ")")
    ensures failure == ApiFailure(response, defaultMessage)
  {
    if response.ok {
      return None;
    }
    var errorMessage := defaultMessage;
    match response.body {
      case Json(message, _, _) =>
        if Truthy(message) {
          errorMessage := ApiErrorPrefix + message.value;
        }
      case Unparseable(_) =>
        errorMessage := defaultMessage + " (Status: " + DecimalString(response.status) + " " + response.statusText + ")";
    }
    failure := Some(errorMessage);
  }
}
