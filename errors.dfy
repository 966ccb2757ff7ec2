/** The errors the endorsement-submission client returns and the text each one carries. */
module Errors {
  import opened Wrappers

  /** One constructor per error the client can return; the argument is what the message embeds. */
  datatype Error =
    | NoEndpoint                                  // the configuration has no submit URI
    | MalformedURI(cause: string)                 // the submit URI does not parse
    | NotAbsolute                                 // the submit URI is relative
    | NoClientSupplied                            // SetClient was given nil
    | TransportSetup(cause: string)               // the TLS client could not be built
    | SubmitRequestFailed(cause: string)          // the POST could not be sent
    | UnexpectedResponseCode(code: int)           // the POST answered neither 200 nor 201
    | EmptyBody                                   // a session response without a body
    | UnexpectedContentType(contentType: string)  // a session response of the wrong media type
    | DecodeFailure(cause: string)                // a session body that does not parse
    | SubmissionFailed(reason: Option<string>)    // the server reports the session failed
    | UnexpectedState(status: string, code: int)  // a session status not allowed in a response with that code
    | NoSessionLocation(cause: string)            // a 201 answer without a usable Location
    | FetchFailed(cause: string)                  // a poll GET could not be sent
    | FetchUnexpectedStatus(status: string)       // a poll GET answered other than 200
    | PollingExhausted                            // every poll attempt still saw "processing"

  /** The character of one decimal digit. */
  function DigitChar(d: nat): (c: char)
    requires d < 10
    ensures '0' <= c <= '9' && c as int - '0' as int == d
  {
    (48 + d) as char
  }

  /** The decimal digits of n, most significant first, as Go's %d prints a non-negative integer. */
  function Digits(n: nat): (s: string)
    ensures |s| >= 1
    ensures forall i :: 0 <= i < |s| ==> '0' <= s[i] <= '9'
  {
    if n < 10 then [DigitChar(n)] else Digits(n / 10) + [DigitChar(n % 10)]
  }

  /** The number a string of decimal digits denotes: the reading of Digits. */
  function DigitsValue(s: string): int
  {
    if s == [] then 0 else DigitsValue(s[..|s| - 1]) * 10 + (s[|s| - 1] as int - '0' as int)
  }

  /** Reading back the digits printed for n gives n. */
  lemma {:induction false} DigitsRoundTrip(n: nat)
    ensures DigitsValue(Digits(n)) == n
  {
    if n >= 10 {
      DigitsRoundTrip(n / 10);
      var s := Digits(n / 10) + [DigitChar(n % 10)];
      assert s[..|s| - 1] == Digits(n / 10);
    }
  }

  /** %d: an optional minus sign followed by the digits of the magnitude. */
  function Decimal(n: int): string
  {
    if n < 0 then "-" + Digits(-n) else Digits(n)
  }

  /** %q, without Go's escaping of special characters. */
  function Quote(s: string): string
  {
    "\"" + s + "\""
  }

  const SubmissionFailedText := "submission failed"
  const ResponseCodeText := "unexpected HTTP response code "

  /** The text of the error as the client reports it. */
  function Message(e: Error): (m: string)
    ensures e.SubmissionFailed? ==> |m| >= |SubmissionFailedText| && m[..|SubmissionFailedText|] == SubmissionFailedText
    ensures e.SubmissionFailed? ==> (m == SubmissionFailedText <==> e.reason.None?)
    ensures e.SubmissionFailed? && e.reason.Some? ==> m[|SubmissionFailedText|..] == ": " + e.reason.value
  {
    match e
    case NoEndpoint => "bad configuration: no API endpoint"
    case MalformedURI(c) => "malformed URI: " + c
    case NotAbsolute => "uri is not absolute"
    case NoClientSupplied => "no client supplied"
    case TransportSetup(c) => c
    case SubmitRequestFailed(c) => "submit request failed: " + c
    case UnexpectedResponseCode(n) => ResponseCodeText + Decimal(n)
    case EmptyBody => "empty body"
    case UnexpectedContentType(ct) => "session resource with unexpected content type: " + Quote(ct)
    case DecodeFailure(c) => "failure decoding session resource: " + c
    case SubmissionFailed(r) => SubmissionFailedText + (if r.Some? then ": " + r.value else "")
    case UnexpectedState(s, n) => "unexpected session state " + Quote(s) + " in " + Decimal(n) + " response"
    case NoSessionLocation(c) => "cannot determine URI for the session resource: " + c
    case FetchFailed(c) => "session resource fetch failed: " + c
    case FetchUnexpectedStatus(s) => "session resource fetch returned an unexpected status: " + s
    case PollingExhausted => "polling attempts exhausted, session resource state still not complete"
  }

  /** The message for an unexpected response code names that code: its tail reads back as the code. */
  lemma ResponseCodeMessage(code: nat)
    ensures var m := Message(UnexpectedResponseCode(code));
            |m| > |ResponseCodeText| && m[..|ResponseCodeText|] == ResponseCodeText &&
            DigitsValue(m[|ResponseCodeText|..]) == code
  {
    var m := Message(UnexpectedResponseCode(code));
    assert m[|ResponseCodeText|..] == Digits(code);
    DigitsRoundTrip(code);
  }

  /** The message the client's tests expect for a 404 answer to the POST. */
  lemma NotFoundMessage()
    ensures Message(UnexpectedResponseCode(404)) == "unexpected HTTP response code 404"
  {
    assert Digits(40) == "40";
    assert Digits(404) == "404";
  }

  /** The message the client's tests expect for a status not allowed in a 200 response. */
  lemma UnexpectedStateMessage()
    ensures Message(UnexpectedState("whatever", 200)) == "unexpected session state \"whatever\" in 200 response"
  {
    assert Digits(20) == "20";
    assert Decimal(200) == "200";
    var q := Quote("whatever");
    assert q == "\"whatever\"";
    calc {
      Message(UnexpectedState("whatever", 200));
      "unexpected session state " + q + " in " + "200" + " response";
      "unexpected session state \"whatever\" in 200 response";
    }
  }
}
